/** The free prune of stale tool output: duplicates first, then bodies older than the
    recent-output window. */
module Prune {
  import opened Text
  import opened Transcript

  const PROTECT_RECENT_TOKENS := 40000
  const MIN_RECLAIM_TOKENS := 20000
  const MIN_BODY_TOKENS := 200

  /** The UTF-8 bytes of an em dash. */
  const DASH: string := ['\U{E2}', '\U{80}', '\U{94}']
  const PRUNED_PREFIX := "[pruned "

  function ToolLabel(toolName: string): string {
    if toolName == "" then "tool" else toolName
  }

  function PrunedPlaceholder(toolName: string, originalTokens: nat): string {
    PRUNED_PREFIX + ToolLabel(toolName) + " output (~" + Decimal(originalTokens) + " tokens) to reclaim context "
    + DASH + " re-run the tool if you need it again]"
  }

  function DuplicatePlaceholder(toolName: string, originalTokens: nat): string {
    PRUNED_PREFIX + "duplicate " + ToolLabel(toolName) + " output (~" + Decimal(originalTokens) + " tokens) "
    + DASH + " identical to a later result still in context]"
  }

  predicate IsPrunedPlaceholder(content: string) {
    HasPrefix(TrimSpace(content), PRUNED_PREFIX)
  }

  /** Anything that opens with the marker and ends with a bracket is recognized. */
  lemma MarkerRecognized(s: string)
    requires PRUNED_PREFIX <= s && s[|s| - 1] == ']'
    ensures IsPrunedPlaceholder(s) && TrimSpace(s) == s
  {
    assert s[0] == PRUNED_PREFIX[0];
    TrimmedIsKept(s);
  }

  lemma PlaceholdersRecognized(toolName: string, tokens: nat)
    ensures IsPrunedPlaceholder(PrunedPlaceholder(toolName, tokens))
    ensures IsPrunedPlaceholder(DuplicatePlaceholder(toolName, tokens))
  {
    MarkerRecognized(PrunedPlaceholder(toolName, tokens));
    MarkerRecognized(DuplicatePlaceholder(toolName, tokens));
  }

  const AFTER_LABEL := " output "
  const AFTER_COUNT := "tokens) to reclaim context "
  const AFTER_DUPLICATE_COUNT := "tokens) "
  const RERUN_HINT := " re-run the tool if you need it again]"
  const LATER_HINT := " identical to a later result still in context]"

  /** A marker, a label, a parenthesis, and the count up to the next space. */
  lemma LabelAndCountReadBack(mark: string, shown: string, n: nat, rest: string, shown': string, n': nat)
    requires '(' !in shown && '(' !in shown'
    requires mark + (shown + AFTER_LABEL + ['('] + ("~" + Decimal(n) + [' '] + rest))
          == mark + (shown' + AFTER_LABEL + ['('] + ("~" + Decimal(n') + [' '] + rest))
    ensures shown == shown' && n == n'
  {
    hide Decimal, ReadDecimal;
    var a, a' := shown + AFTER_LABEL, shown' + AFTER_LABEL;
    var b, b' := "~" + Decimal(n) + [' '] + rest, "~" + Decimal(n') + [' '] + rest;
    assert (mark + (a + ['('] + b))[|mark|..] == a + ['('] + b && (mark + (a' + ['('] + b'))[|mark|..] == a' + ['('] + b';
    SplitsAt(a, '(', b, a', b');
    assert a[..|a| - |AFTER_LABEL|] == shown && a'[..|a'| - |AFTER_LABEL|] == shown';
    DecimalDigits(n);
    DecimalDigits(n');
    SplitsAt("~" + Decimal(n), ' ', rest, "~" + Decimal(n'), rest);
    assert ("~" + Decimal(n))[1..] == Decimal(n) && ("~" + Decimal(n'))[1..] == Decimal(n');
    DecimalReadsBack(n);
    DecimalReadsBack(n');
  }

  lemma Regrouped(p: string, l: string, a: string, d: string, b: string, dash: string, h: string)
    ensures p + l + (a + ['('] + "~") + d + ([' '] + b) + dash + h == p + (l + a + ['('] + ("~" + d + [' '] + (b + dash + h)))
  {
    var left, right := p + l + (a + ['('] + "~") + d + ([' '] + b) + dash + h, p + (l + a + ['('] + ("~" + d + [' '] + (b + dash + h)));
    assert |left| == |right|;
    assert left == right;
  }

  lemma PlaceholderWords()
    ensures " output (~" == AFTER_LABEL + ['('] + "~"
    ensures " tokens) to reclaim context " == [' '] + AFTER_COUNT
    ensures " tokens) " == [' '] + AFTER_DUPLICATE_COUNT
  {
  }

  lemma PlaceholderParts(toolName: string, n: nat)
    ensures PrunedPlaceholder(toolName, n)
      == PRUNED_PREFIX + (ToolLabel(toolName) + AFTER_LABEL + ['('] + ("~" + Decimal(n) + [' '] + (AFTER_COUNT + DASH + RERUN_HINT)))
    ensures DuplicatePlaceholder(toolName, n)
      == PRUNED_PREFIX + "duplicate "
         + (ToolLabel(toolName) + AFTER_LABEL + ['('] + ("~" + Decimal(n) + [' '] + (AFTER_DUPLICATE_COUNT + DASH + LATER_HINT)))
  {
    hide Decimal, ToolLabel;
    PlaceholderWords();
    Regrouped(PRUNED_PREFIX, ToolLabel(toolName), AFTER_LABEL, Decimal(n), AFTER_COUNT, DASH, RERUN_HINT);
    Regrouped(PRUNED_PREFIX + "duplicate ", ToolLabel(toolName), AFTER_LABEL, Decimal(n), AFTER_DUPLICATE_COUNT, DASH, LATER_HINT);
  }

  /** The same tool, a missing name standing for "tool". */
  predicate SameTool(a: string, b: string) {
    a == b || (a in ["", "tool"] && b in ["", "tool"])
  }

  /** A placeholder tells which tool's output it stands for and how much of it there was. */
  lemma PlaceholderTells(tool: string, n: nat, tool': string, n': nat)
    requires '(' !in tool && '(' !in tool'
    ensures PrunedPlaceholder(tool, n) == PrunedPlaceholder(tool', n') <==> SameTool(tool, tool') && n == n'
    ensures DuplicatePlaceholder(tool, n) == DuplicatePlaceholder(tool', n') <==> SameTool(tool, tool') && n == n'
  {
    hide Decimal, PrunedPlaceholder, DuplicatePlaceholder;
    PlaceholderParts(tool, n);
    PlaceholderParts(tool', n');
    if PrunedPlaceholder(tool, n) == PrunedPlaceholder(tool', n') {
      LabelAndCountReadBack(PRUNED_PREFIX, ToolLabel(tool), n, AFTER_COUNT + DASH + RERUN_HINT, ToolLabel(tool'), n');
    }
    if DuplicatePlaceholder(tool, n) == DuplicatePlaceholder(tool', n') {
      LabelAndCountReadBack(PRUNED_PREFIX + "duplicate ", ToolLabel(tool), n, AFTER_DUPLICATE_COUNT + DASH + LATER_HINT,
                            ToolLabel(tool'), n');
    }
  }

  /* ---- tool names by call id ---- */

  function AddCalls(names: map<string, string>, calls: seq<ToolCall>): map<string, string> {
    if calls == [] then names
    else
      var before := AddCalls(names, calls[..|calls| - 1]);
      var call := calls[|calls| - 1];
      if call.id != "" && call.name != "" then before[call.id := call.name] else before
  }

  function ToolNames(ms: seq<Message>): map<string, string> {
    if ms == [] then map[] else AddCalls(ToolNames(ms[..|ms| - 1]), ms[|ms| - 1].toolCalls)
  }

  method ToolNamesByCallId(messages: seq<Message>) returns (names: map<string, string>)
    ensures names == ToolNames(messages)
  {
    names := map[];
    for i := 0 to |messages|
      invariant names == ToolNames(messages[..i])
    {
      var calls := messages[i].toolCalls;
      ghost var before := names;
      for j := 0 to |calls|
        invariant names == AddCalls(before, calls[..j])
      {
        if calls[j].id != "" && calls[j].name != "" {
          names := names[calls[j].id := calls[j].name];
        }
        assert calls[..j + 1][..j] == calls[..j];
      }
      assert calls[..|calls|] == calls;
      assert messages[..i + 1][..i] == messages[..i];
    }
    assert messages[..|messages|] == messages;
  }

  function NameOf(names: map<string, string>, id: string): string {
    if id in names then names[id] else ""
  }

  /* ---- what the two passes replace ---- */

  /** A tool result that has not been pruned yet. */
  predicate Live(m: Message) {
    m.role == Tool && !IsPrunedPlaceholder(m.content)
  }

  function Key(names: map<string, string>, m: Message): string {
    NameOf(names, m.toolCallId) + "\0" + m.content
  }

  ghost predicate HasLaterCopy(ms: seq<Message>, i: nat)
    requires i < |ms|
  {
    exists j :: i < j < |ms| && Live(ms[j]) && Key(ToolNames(ms), ms[j]) == Key(ToolNames(ms), ms[i])
  }

  function DuplicateBody(ms: seq<Message>, i: nat): string
    requires i < |ms|
  {
    DuplicatePlaceholder(NameOf(ToolNames(ms), ms[i].toolCallId), Tokens(ms[i].content))
  }

  function StaleBody(ms: seq<Message>, i: nat): string
    requires i < |ms|
  {
    PrunedPlaceholder(NameOf(ToolNames(ms), ms[i].toolCallId), Tokens(ms[i].content))
  }

  /** Outside the preserved tail, large, not pruned, and the placeholder is a saving. */
  predicate Replaceable(ms: seq<Message>, preserve: nat, i: nat, body: string)
    requires i < |ms|
  {
    && Live(ms[i])
    && i < |ms| - preserve
    && Tokens(ms[i].content) >= MIN_BODY_TOKENS
    && Tokens(body) < Tokens(ms[i].content)
  }

  ghost predicate Collapsed(ms: seq<Message>, preserve: nat, i: nat)
    requires i < |ms|
  {
    Replaceable(ms, preserve, i, DuplicateBody(ms, i)) && HasLaterCopy(ms, i)
  }

  /** Tokens of the tool results at or after `i` that were not collapsed. */
  ghost function RecentTokens(ms: seq<Message>, preserve: nat, i: nat): nat
    requires i <= |ms|
    decreases |ms| - i
  {
    if i == |ms| then 0
    else
      var own := if ms[i].role == Tool && !Collapsed(ms, preserve, i) then Tokens(ms[i].content) else 0;
      RecentTokens(ms, preserve, i + 1) + own
  }

  ghost predicate Stale(ms: seq<Message>, preserve: nat, i: nat)
    requires i < |ms|
  {
    && Replaceable(ms, preserve, i, StaleBody(ms, i))
    && !Collapsed(ms, preserve, i)
    && RecentTokens(ms, preserve, i + 1) >= PROTECT_RECENT_TOKENS
  }

  ghost function NewBody(ms: seq<Message>, preserve: nat, i: nat): string
    requires i < |ms|
  {
    if Collapsed(ms, preserve, i) then DuplicateBody(ms, i)
    else if Stale(ms, preserve, i) then StaleBody(ms, i)
    else ms[i].content
  }

  ghost function Reclaim(ms: seq<Message>, preserve: nat, n: nat): int
    requires n <= |ms|
  {
    if n == 0 then 0
    else Reclaim(ms, preserve, n - 1) + Tokens(ms[n - 1].content) - Tokens(NewBody(ms, preserve, n - 1))
  }

  ghost function Rewritten(ms: seq<Message>, preserve: nat): (out: seq<Message>)
    ensures |out| == |ms|
  {
    seq(|ms|, i requires 0 <= i < |ms| => ms[i].(content := NewBody(ms, preserve, i)))
  }

  /** The whole prune: the rewritten history, or the input when too little is reclaimed. */
  ghost function Pruned(ms: seq<Message>, preserve: nat): (seq<Message>, int) {
    if Reclaim(ms, preserve, |ms|) >= MIN_RECLAIM_TOKENS
    then (Rewritten(ms, preserve), Reclaim(ms, preserve, |ms|))
    else (ms, 0)
  }

  method PruneStaleToolOutput(messages: seq<Message>, preserveLast: int) returns (out: seq<Message>, reclaimed: int)
    ensures (out, reclaimed) == Pruned(messages, if preserveLast < 0 then 0 else preserveLast)
  {
    hide Collapsed, Stale, NewBody, Tokens, DuplicateBody, StaleBody, ToolNames;
    var n := |messages|;
    var preserve: nat := if preserveLast < 0 then 0 else preserveLast;
    if n == 0 {
      return messages, 0;
    }
    var names := ToolNamesByCallId(messages);
    var replacements := CollapseDuplicates(messages, preserve, names);
    replacements := ReplaceStale(messages, preserve, names, replacements);

    var reclaimable := 0;
    for index := 0 to n
      invariant reclaimable == Reclaim(messages, preserve, index)
    {
      if index in replacements {
        reclaimable := reclaimable + Tokens(messages[index].content) - Tokens(replacements[index]);
      }
    }
    if reclaimable < MIN_RECLAIM_TOKENS {
      return messages, 0;
    }
    out := messages;
    for index := 0 to n
      invariant |out| == n
      invariant forall k :: 0 <= k < n ==>
        out[k] == if k < index then Rewritten(messages, preserve)[k] else messages[k]
    {
      if index in replacements {
        out := out[index := out[index].(content := replacements[index])];
      }
    }
    assert out == Rewritten(messages, preserve);
    reclaimed := reclaimable;
  }

  /** Pass 1: scan newest first; an older byte-identical result becomes a pointer. */
  method CollapseDuplicates(messages: seq<Message>, preserve: nat, names: map<string, string>)
    returns (replacements: map<nat, string>)
    requires names == ToolNames(messages)
    ensures forall j: nat :: j in replacements <==> j < |messages| && Collapsed(messages, preserve, j)
    ensures forall j: nat :: j in replacements ==> replacements[j] == DuplicateBody(messages, j)
  {
    hide DuplicatePlaceholder, IsPrunedPlaceholder, Key, ToolNames, Tokens;
    replacements := map[];
    var seen: set<string> := {};
    var i := |messages|;
    while i > 0
      invariant 0 <= i <= |messages|
      invariant forall k :: k in seen <==> exists j :: i <= j < |messages| && Live(messages[j]) && Key(names, messages[j]) == k
      invariant forall j: nat :: j in replacements <==> i <= j < |messages| && Collapsed(messages, preserve, j)
      invariant forall j: nat :: j in replacements ==> replacements[j] == DuplicateBody(messages, j)
    {
      i := i - 1;
      var msg := messages[i];
      if Live(msg) {
        var key := Key(names, msg);
        assert key in seen <==> HasLaterCopy(messages, i);
        if key !in seen {
          seen := seen + {key};
        } else if i < |messages| - preserve && Tokens(msg.content) >= MIN_BODY_TOKENS {
          var body := DuplicatePlaceholder(NameOf(names, msg.toolCallId), Tokens(msg.content));
          if Tokens(body) < Tokens(msg.content) {
            replacements := replacements[i := body];
          }
        }
      }
    }
  }

  /** The running count is the recent output from `i` on, as far as the window asks. */
  ghost predicate Windowed(ms: seq<Message>, preserve: nat, i: nat, recent: int)
    requires i <= |ms|
  {
    recent == RecentTokens(ms, preserve, i) || PROTECT_RECENT_TOKENS <= recent <= RecentTokens(ms, preserve, i)
  }

  lemma StaleByCount(ms: seq<Message>, preserve: nat, i: nat, recent: int)
    requires i < |ms| && Windowed(ms, preserve, i + 1, recent)
    ensures Stale(ms, preserve, i) <==>
      && !Collapsed(ms, preserve, i) && ms[i].role == Tool && i < |ms| - preserve && recent >= PROTECT_RECENT_TOKENS
      && Tokens(ms[i].content) >= MIN_BODY_TOKENS && !IsPrunedPlaceholder(ms[i].content)
      && Tokens(StaleBody(ms, i)) < Tokens(ms[i].content)
    ensures Windowed(ms, preserve, i,
      if ms[i].role == Tool && !Collapsed(ms, preserve, i) && (i >= |ms| - preserve || recent < PROTECT_RECENT_TOKENS)
      then recent + Tokens(ms[i].content) else recent)
  {
    hide Collapsed, IsPrunedPlaceholder, Tokens, StaleBody;
  }

  /** The replacements of both passes, the second one from `i` on. */
  ghost predicate ReplacedFrom(ms: seq<Message>, preserve: nat, i: int, replacements: map<nat, string>) {
    forall j: nat :: (j in replacements <==>
        j < |ms| && (Collapsed(ms, preserve, j) || (i <= j && Stale(ms, preserve, j))))
      && (j in replacements ==> replacements[j] == NewBody(ms, preserve, j))
  }

  lemma ReplaceNext(ms: seq<Message>, preserve: nat, i: nat, replacements: map<nat, string>)
    requires i < |ms| && ReplacedFrom(ms, preserve, i + 1, replacements)
    ensures i in replacements <==> Collapsed(ms, preserve, i)
    ensures Stale(ms, preserve, i) && !Collapsed(ms, preserve, i) ==>
      ReplacedFrom(ms, preserve, i, replacements[i := StaleBody(ms, i)])
    ensures !Stale(ms, preserve, i) || Collapsed(ms, preserve, i) ==> ReplacedFrom(ms, preserve, i, replacements)
  {
    hide Collapsed, Stale, StaleBody, DuplicateBody;
  }

  /** Pass 2: bodies older than the recent-output window. */
  method ReplaceStale(messages: seq<Message>, preserve: nat, names: map<string, string>, duplicates: map<nat, string>)
    returns (replacements: map<nat, string>)
    requires names == ToolNames(messages)
    requires forall j: nat :: j in duplicates <==> j < |messages| && Collapsed(messages, preserve, j)
    requires forall j: nat :: j in duplicates ==> duplicates[j] == DuplicateBody(messages, j)
    ensures forall j: nat :: j in replacements <==>
      j < |messages| && (Collapsed(messages, preserve, j) || Stale(messages, preserve, j))
    ensures forall j: nat :: j in replacements ==> replacements[j] == NewBody(messages, preserve, j)
    ensures forall j: nat :: j < |messages| && j !in replacements ==> NewBody(messages, preserve, j) == messages[j].content
  {
    hide PrunedPlaceholder, IsPrunedPlaceholder, ToolNames, NameOf, Tokens, Collapsed, Stale, NewBody, Windowed, ReplacedFrom;
    DuplicatesReplaced(messages, preserve, duplicates);
    replacements := duplicates;
    var recentToolTokens := 0;
    var i := |messages|;
    while i > 0
      invariant 0 <= i <= |messages|
      invariant Windowed(messages, preserve, i, recentToolTokens)
      invariant ReplacedFrom(messages, preserve, i, replacements)
    {
      i := i - 1;
      var msg := messages[i];
      StaleByCount(messages, preserve, i, recentToolTokens);
      ReplaceNext(messages, preserve, i, replacements);
      if msg.role == Tool && i !in replacements {
        var bodyTokens := Tokens(msg.content);
        if i >= |messages| - preserve || recentToolTokens < PROTECT_RECENT_TOKENS {
          recentToolTokens := recentToolTokens + bodyTokens;
        } else if bodyTokens >= MIN_BODY_TOKENS && !IsPrunedPlaceholder(msg.content) {
          var body := PrunedPlaceholder(NameOf(names, msg.toolCallId), bodyTokens);
          if Tokens(body) < bodyTokens {
            replacements := replacements[i := body];
          }
        }
      }
    }
    AllReplaced(messages, preserve, replacements);
  }

  lemma DuplicatesReplaced(ms: seq<Message>, preserve: nat, duplicates: map<nat, string>)
    requires forall j: nat :: j in duplicates <==> j < |ms| && Collapsed(ms, preserve, j)
    requires forall j: nat :: j in duplicates ==> duplicates[j] == DuplicateBody(ms, j)
    ensures ReplacedFrom(ms, preserve, |ms|, duplicates) && Windowed(ms, preserve, |ms|, 0)
  {
    hide Collapsed, Stale, StaleBody, DuplicateBody;
  }

  lemma AllReplaced(ms: seq<Message>, preserve: nat, replacements: map<nat, string>)
    requires ReplacedFrom(ms, preserve, 0, replacements)
    ensures forall j: nat :: j in replacements <==> j < |ms| && (Collapsed(ms, preserve, j) || Stale(ms, preserve, j))
    ensures forall j: nat :: j in replacements ==> replacements[j] == NewBody(ms, preserve, j)
    ensures forall j: nat :: j < |ms| && j !in replacements ==> NewBody(ms, preserve, j) == ms[j].content
  {
    hide Collapsed, Stale, StaleBody, DuplicateBody;
  }

  /* ---- what the prune guarantees ---- */

  /** Only bodies of tool messages before the preserved tail change, and a changed body
      becomes a recognized placeholder. */
  lemma PruneTouchesOnlyStaleResults(ms: seq<Message>, preserve: nat, i: nat)
    requires i < |ms|
    ensures |Pruned(ms, preserve).0| == |ms|
    ensures var m' := Pruned(ms, preserve).0[i];
      m' == ms[i] || (Live(ms[i]) && i < |ms| - preserve && m' == ms[i].(content := m'.content)
                      && IsPrunedPlaceholder(m'.content) && Tokens(m'.content) < Tokens(ms[i].content))
  {
    PlaceholdersRecognized(NameOf(ToolNames(ms), ms[i].toolCallId), Tokens(ms[i].content));
  }

  lemma PruneKeepsFrames(ms: seq<Message>, preserve: nat)
    ensures SameFrames(ms, Pruned(ms, preserve).0)
  {
    forall i | 0 <= i < |ms| ensures SameFrame(ms[i], Pruned(ms, preserve).0[i]) {
      PruneTouchesOnlyStaleResults(ms, preserve, i);
    }
  }

  lemma {:induction false} ReclaimIsTheDrop(ms: seq<Message>, preserve: nat, n: nat)
    requires n <= |ms|
    ensures Estimate(ms[..n]) - Estimate(Rewritten(ms, preserve)[..n]) == Reclaim(ms, preserve, n)
  {
    hide Collapsed, Stale, NewBody, Tokens, CallTokens;
    if n > 0 {
      ReclaimIsTheDrop(ms, preserve, n - 1);
      var out := Rewritten(ms, preserve);
      assert ms[..n][..n - 1] == ms[..n - 1];
      assert out[..n][..n - 1] == out[..n - 1];
      assert out[n - 1] == ms[n - 1].(content := NewBody(ms, preserve, n - 1));
    }
  }

  /** The reported figure is the exact drop in the estimate; it is zero, with the history
      unchanged, or at least the gate. */
  lemma PruneAccounting(ms: seq<Message>, preserve: nat)
    ensures var (out, reclaimed) := Pruned(ms, preserve);
      && Estimate(ms) - Estimate(out) == reclaimed
      && (reclaimed >= MIN_RECLAIM_TOKENS || (reclaimed == 0 && out == ms))
  {
    ReclaimIsTheDrop(ms, preserve, |ms|);
    assert ms[..|ms|] == ms;
    assert Rewritten(ms, preserve)[..|ms|] == Rewritten(ms, preserve);
  }

  /* ---- duplicates ---- */

  predicate NulFree(s: string) {
    '\0' !in s
  }

  /** With names free of NUL bytes a key determines both its tool and its body. */
  lemma KeyIsInjective(name: string, body: string, name': string, body': string)
    requires NulFree(name) && NulFree(name')
    requires name + "\0" + body == name' + "\0" + body'
    ensures name == name' && body == body'
  {
    var k := name + "\0" + body;
    assert k[|name|] == '\0' && k[|name'|] == '\0';
    assert forall i :: 0 <= i < |name| ==> k[i] == name[i];
    assert forall i :: 0 <= i < |name'| ==> k[i] == name'[i];
    assert k[..|name|] == name && k[..|name'|] == name';
    assert k[|name| + 1..] == body && k[|name'| + 1..] == body';
  }

  /** A duplicate placeholder stands for a later result with the same key: the same tool
      exactly when it is the same body, and both unless a tool name holds a NUL byte. */
  lemma DuplicateHasLaterCopy(ms: seq<Message>, preserve: nat, i: nat) returns (j: nat)
    requires i < |ms| && Collapsed(ms, preserve, i)
    ensures i < j < |ms| && Live(ms[j])
    ensures var name, name' := NameOf(ToolNames(ms), ms[i].toolCallId), NameOf(ToolNames(ms), ms[j].toolCallId);
      && (name == name' <==> ms[i].content == ms[j].content)
      && (NulFree(name) && NulFree(name') ==> name == name' && ms[i].content == ms[j].content)
  {
    hide DuplicatePlaceholder, IsPrunedPlaceholder, Tokens;
    var names := ToolNames(ms);
    j :| i < j < |ms| && Live(ms[j]) && Key(names, ms[j]) == Key(names, ms[i]);
    var name, name' := NameOf(names, ms[i].toolCallId), NameOf(names, ms[j].toolCallId);
    SameKey(name, ms[i].content, name', ms[j].content);
    if NulFree(name) && NulFree(name') {
      KeyIsInjective(name, ms[i].content, name', ms[j].content);
    }
  }

  lemma SameKey(name: string, body: string, name': string, body': string)
    requires name + "\0" + body == name' + "\0" + body'
    ensures name == name' <==> body == body'
  {
    var k := name + "\0" + body;
    assert k[..|name|] == name && k[..|name'|] == name';
    assert k[|name| + 1..] == body && k[|name'| + 1..] == body';
  }

  /** A body without a later copy stays as it is while fewer than 40000 tokens of tool
      output follow it. */
  lemma RecentBodyIsKept(ms: seq<Message>, preserve: nat, i: nat)
    requires i < |ms| && !HasLaterCopy(ms, i)
    requires i >= |ms| - preserve || RecentTokens(ms, preserve, i + 1) < PROTECT_RECENT_TOKENS
    ensures Pruned(ms, preserve).0[i] == ms[i]
  {
    hide DuplicatePlaceholder, PrunedPlaceholder, IsPrunedPlaceholder, Tokens;
  }

  /** "Still in context" holds of the copy a duplicate points at exactly when that copy is
      recent, or too cheap to replace: the second pass takes it otherwise. */
  lemma NewestCopySurvivesIff(ms: seq<Message>, preserve: nat, i: nat, j: nat)
    requires i < j < |ms| && Collapsed(ms, preserve, i)
    requires Live(ms[j]) && ms[j].content == ms[i].content && !HasLaterCopy(ms, j)
    requires Reclaim(ms, preserve, |ms|) >= MIN_RECLAIM_TOKENS
    ensures Pruned(ms, preserve).0[j].content == ms[i].content
      <==> || j >= |ms| - preserve
           || RecentTokens(ms, preserve, j + 1) < PROTECT_RECENT_TOKENS
           || Tokens(StaleBody(ms, j)) >= Tokens(ms[j].content)
  {
    hide DuplicatePlaceholder, PrunedPlaceholder, IsPrunedPlaceholder, ToolNames;
  }

  /* ---- running the prune again ---- */

  lemma {:induction false} RewritingKeepsNames(ms: seq<Message>, ms': seq<Message>)
    requires |ms'| == |ms| && forall k :: 0 <= k < |ms| ==> ms'[k].toolCalls == ms[k].toolCalls
    ensures ToolNames(ms') == ToolNames(ms)
  {
    if ms != [] {
      RewritingKeepsNames(ms[..|ms| - 1], ms'[..|ms| - 1]);
    }
  }

  function LiveCount(ms: seq<Message>): nat {
    if ms == [] then 0 else LiveCount(ms[..|ms| - 1]) + if Live(ms[|ms| - 1]) then 1 else 0
  }

  lemma {:induction false} LiveCountDrops(ms: seq<Message>, ms': seq<Message>)
    requires |ms'| == |ms|
    requires forall k :: 0 <= k < |ms| && Live(ms'[k]) ==> Live(ms[k])
    ensures LiveCount(ms') <= LiveCount(ms)
    ensures (exists k :: 0 <= k < |ms| && Live(ms[k]) && !Live(ms'[k])) ==> LiveCount(ms') < LiveCount(ms)
  {
    hide IsPrunedPlaceholder;
    if ms != [] {
      LiveCountDrops(ms[..|ms| - 1], ms'[..|ms| - 1]);
    }
  }

  /** A prune that changes anything leaves fewer live bodies, and never touches a placeholder. */
  lemma PruneSettles(ms: seq<Message>, preserve: nat)
    requires Pruned(ms, preserve).0 != ms
    ensures LiveCount(Pruned(ms, preserve).0) < LiveCount(ms)
  {
    hide DuplicatePlaceholder, PrunedPlaceholder, IsPrunedPlaceholder, Pruned;
    var out := Pruned(ms, preserve).0;
    PruneKeepsFrames(ms, preserve);
    forall k | 0 <= k < |ms| ensures out[k] == ms[k] || (Live(ms[k]) && !Live(out[k])) {
      PruneTouchesOnlyStaleResults(ms, preserve, k);
    }
    LiveCountDrops(ms, out);
  }

  ghost function Iterate(ms: seq<Message>, preserve: nat, n: nat): seq<Message>
    decreases n
  {
    if n == 0 then ms else Iterate(Pruned(ms, preserve).0, preserve, n - 1)
  }

  /** Running the prune again and again reaches a fixpoint within one run per live body. */
  lemma IterationReachesFixpoint(ms: seq<Message>, preserve: nat) returns (n: nat)
    ensures n <= LiveCount(ms)
    ensures Pruned(Iterate(ms, preserve, n), preserve).0 == Iterate(ms, preserve, n)
    decreases LiveCount(ms)
  {
    hide Pruned;
    var out := Pruned(ms, preserve).0;
    if out == ms {
      n := 0;
    } else {
      PruneSettles(ms, preserve);
      var m := IterationReachesFixpoint(out, preserve);
      n := m + 1;
    }
  }

  /** Rewriting creates no new duplicate: a body still live is one the prune left alone. */
  lemma NoNewDuplicates(ms: seq<Message>, preserve: nat, k: nat)
    requires k < |ms|
    ensures !Collapsed(Rewritten(ms, preserve), preserve, k)
    ensures Live(Rewritten(ms, preserve)[k]) ==> Rewritten(ms, preserve)[k] == ms[k]
  {
    hide DuplicatePlaceholder, PrunedPlaceholder, IsPrunedPlaceholder, ToolNames, Tokens;
    var out := Rewritten(ms, preserve);
    RewritingKeepsNames(ms, out);
    forall i | 0 <= i < |ms| && Live(out[i]) ensures out[i] == ms[i] {
      PlaceholdersRecognized(NameOf(ToolNames(ms), ms[i].toolCallId), Tokens(ms[i].content));
    }
  }

  /** Tokens of the pointers that replace the duplicates at or after `i`. */
  ghost function DupTokens(ms: seq<Message>, preserve: nat, i: nat): nat
    requires i <= |ms|
    decreases |ms| - i
  {
    if i == |ms| then 0
    else DupTokens(ms, preserve, i + 1) + if Collapsed(ms, preserve, i) then Tokens(DuplicateBody(ms, i)) else 0
  }

  /** A body that the window still covers, but would not if the pointers of the duplicates
      after it counted. */
  ghost predicate Exposed(ms: seq<Message>, preserve: nat, i: nat)
    requires i < |ms|
  {
    && Replaceable(ms, preserve, i, StaleBody(ms, i))
    && !Collapsed(ms, preserve, i)
    && RecentTokens(ms, preserve, i + 1) < PROTECT_RECENT_TOKENS
         <= RecentTokens(ms, preserve, i + 1) + DupTokens(ms, preserve, i + 1)
  }

  ghost function ExposedSavings(ms: seq<Message>, preserve: nat, n: nat): nat
    requires n <= |ms|
  {
    if n == 0 then 0
    else ExposedSavings(ms, preserve, n - 1)
         + if Exposed(ms, preserve, n - 1) then Tokens(ms[n - 1].content) - Tokens(StaleBody(ms, n - 1)) else 0
  }

  /** Tokens of the tool results at or after `i` as the prune leaves them, pointers included. */
  ghost function WindowLeft(ms: seq<Message>, preserve: nat, i: nat): nat
    requires i <= |ms|
    decreases |ms| - i
  {
    if i == |ms| then 0
    else WindowLeft(ms, preserve, i + 1) + if ms[i].role == Tool then Tokens(NewBody(ms, preserve, i)) else 0
  }

  lemma {:induction false} WindowLeftIs(ms: seq<Message>, preserve: nat, i: nat)
    requires i <= |ms|
    ensures RecentTokens(Rewritten(ms, preserve), preserve, i) == WindowLeft(ms, preserve, i)
    decreases |ms| - i
  {
    hide Collapsed, NewBody, Tokens, Live;
    if i < |ms| {
      NoNewDuplicates(ms, preserve, i);
      WindowLeftIs(ms, preserve, i + 1);
    }
  }

  /** While the window is not full no body in it is stale, so it is left as it was, with the
      pointers added. */
  lemma {:induction false} OpenWindowLeft(ms: seq<Message>, preserve: nat, i: nat)
    requires i <= |ms| && RecentTokens(ms, preserve, i) < PROTECT_RECENT_TOKENS
    ensures WindowLeft(ms, preserve, i) == RecentTokens(ms, preserve, i) + DupTokens(ms, preserve, i)
    decreases |ms| - i
  {
    hide HasLaterCopy, IsPrunedPlaceholder, Tokens, DuplicateBody, StaleBody;
    if i < |ms| {
      OpenWindowLeft(ms, preserve, i + 1);
    }
  }

  /** What the second run replaces. */
  lemma StaleTwiceIffExposed(ms: seq<Message>, preserve: nat, k: nat)
    requires k < |ms|
    ensures Stale(Rewritten(ms, preserve), preserve, k) <==> Exposed(ms, preserve, k)
    ensures Stale(Rewritten(ms, preserve), preserve, k) ==> StaleBody(Rewritten(ms, preserve), k) == StaleBody(ms, k)
    ensures Exposed(ms, preserve, k) ==> Rewritten(ms, preserve)[k] == ms[k]
  {
    hide HasLaterCopy, IsPrunedPlaceholder, Tokens, DuplicatePlaceholder, PrunedPlaceholder, ToolNames, RecentTokens,
      WindowLeft,
      DupTokens;
    var out := Rewritten(ms, preserve);
    NoNewDuplicates(ms, preserve, k);
    RewritingKeepsNames(ms, out);
    WindowLeftIs(ms, preserve, k + 1);
    PlaceholdersRecognized(NameOf(ToolNames(ms), ms[k].toolCallId), Tokens(ms[k].content));
    if RecentTokens(ms, preserve, k + 1) < PROTECT_RECENT_TOKENS {
      OpenWindowLeft(ms, preserve, k + 1);
    }
  }

  lemma {:induction false} SecondReclaim(ms: seq<Message>, preserve: nat, n: nat)
    requires n <= |ms|
    ensures Reclaim(Rewritten(ms, preserve), preserve, n) == ExposedSavings(ms, preserve, n)
  {
    hide Collapsed, Stale, Exposed, Tokens, StaleBody, DuplicateBody, Rewritten;
    if n > 0 {
      SecondReclaim(ms, preserve, n - 1);
      NoNewDuplicates(ms, preserve, n - 1);
      StaleTwiceIffExposed(ms, preserve, n - 1);
    }
  }

  /** A run that acts is a fixpoint exactly when the bodies that only the pointers' tokens
      push out of the window would save less than the gate. */
  lemma IdempotentIff(ms: seq<Message>, preserve: nat)
    requires Reclaim(ms, preserve, |ms|) >= MIN_RECLAIM_TOKENS
    ensures var out := Pruned(ms, preserve).0;
      Pruned(out, preserve).0 == out <==> ExposedSavings(ms, preserve, |ms|) < MIN_RECLAIM_TOKENS
  {
    hide Reclaim, Rewritten, ExposedSavings, Estimate;
    var out := Rewritten(ms, preserve);
    SecondReclaim(ms, preserve, |ms|);
    PruneAccounting(out, preserve);
  }

  lemma {:induction false} NoPointers(ms: seq<Message>, preserve: nat, i: nat)
    requires i <= |ms| && forall k :: 0 <= k < |ms| ==> !Collapsed(ms, preserve, k)
    ensures DupTokens(ms, preserve, i) == 0
    decreases |ms| - i
  {
    hide Collapsed, Tokens;
    if i < |ms| {
      NoPointers(ms, preserve, i + 1);
    }
  }

  /** One run is a fixpoint when it collapsed no duplicate. */
  lemma IdempotentWithoutDuplicates(ms: seq<Message>, preserve: nat)
    requires forall i :: 0 <= i < |ms| ==> !Collapsed(ms, preserve, i)
    ensures Pruned(Pruned(ms, preserve).0, preserve).0 == Pruned(ms, preserve).0
  {
    hide Collapsed, Reclaim, Rewritten, Replaceable, RecentTokens, DupTokens;
    forall k: nat | k < |ms| ensures !Exposed(ms, preserve, k) {
      NoPointers(ms, preserve, k + 1);
    }
    NoSavings(ms, preserve, |ms|);
    if Reclaim(ms, preserve, |ms|) >= MIN_RECLAIM_TOKENS {
      IdempotentIff(ms, preserve);
    }
  }

  lemma {:induction false} NoSavings(ms: seq<Message>, preserve: nat, n: nat)
    requires n <= |ms| && forall k: nat :: k < |ms| ==> !Exposed(ms, preserve, k)
    ensures ExposedSavings(ms, preserve, n) == 0
  {
    hide Exposed;
    if n > 0 {
      NoSavings(ms, preserve, n - 1);
    }
  }

  /* ---- histories of one tool turn ---- */

  /** A body of `n` tokens that no placeholder could be. */
  predicate Plain(body: string, n: nat) {
    |body| == 4 * n > 0 && forall i :: 0 <= i < |body| ==> !IsSpace(body[i]) && body[i] != '['
  }

  function PlainRun(c: char, n: nat): (body: string)
    requires n > 0 && !IsSpace(c) && c != '['
    ensures Plain(body, n) && |body| == 4 * n && body[0] == c
  {
    seq(4 * n, _ => c)
  }

  lemma PlainBodies(body: string, n: nat)
    requires Plain(body, n)
    ensures Tokens(body) == n && !IsPrunedPlaceholder(body)
  {
    NonSpaceRun(body);
    TrimmedIsKept(body);
    assert PRUNED_PREFIX[0] == '[';
  }

  lemma {:induction false} DecimalLength(n: nat)
    ensures 0 < |Decimal(n)| <= n / 10 + 1
  {
    if n >= 10 {
      DecimalLength(n / 10);
    }
  }

  /** Any text opening with the marker costs something. */
  lemma MarkerCost(s: string)
    requires PRUNED_PREFIX <= s
    ensures 1 <= Tokens(s) && 4 * Tokens(s) <= |s|
  {
    NonSpaceBound(s);
    NonSpaceRun("[pru");
    assert s[..4] == PRUNED_PREFIX[..4] == "[pru";
    assert s == s[..4] + s[4..];
    NonSpaceConcat(s[..4], s[4..]);
  }

  lemma PlaceholderCost(tool: string, n: nat)
    requires |tool| <= 40
    ensures 1 <= Tokens(DuplicatePlaceholder(tool, n)) <= n / 40 + 40
    ensures 1 <= Tokens(PrunedPlaceholder(tool, n)) <= n / 40 + 40
  {
    hide Tokens;
    DecimalLength(n);
    MarkerCost(DuplicatePlaceholder(tool, n));
    MarkerCost(PrunedPlaceholder(tool, n));
  }

  function CallId(k: nat): string {
    "call" + Decimal(k)
  }

  const NOTICE := "Continue."

  function CallsOf(tool: string, n: nat): (calls: seq<ToolCall>)
    ensures |calls| == n && forall k :: 0 <= k < n ==> calls[k] == ToolCall(CallId(k), tool, "{}")
  {
    seq(n, k requires 0 <= k < n => ToolCall(CallId(k), tool, "{}"))
  }

  function ResultsOf(bodies: seq<string>): (results: seq<Message>)
    ensures |results| == |bodies| && forall k :: 0 <= k < |bodies| ==> results[k] == ToolResult(CallId(k), bodies[k])
  {
    seq(|bodies|, k requires 0 <= k < |bodies| => ToolResult(CallId(k), bodies[k]))
  }

  function NoticesOf(n: nat): (notices: seq<Message>)
    ensures |notices| == n && forall k :: 0 <= k < n ==> notices[k] == UserText(NOTICE)
  {
    seq(n, _ => UserText(NOTICE))
  }

  /** One assistant calling one tool once per body, the results, and a tail of notices. */
  function History(tool: string, bodies: seq<string>, tail: nat): (ms: seq<Message>)
    ensures |ms| == 1 + |bodies| + tail
    ensures ms[0] == Message(Assistant, "", CallsOf(tool, |bodies|), "", [], [])
    ensures forall k :: 0 <= k < |bodies| ==> ms[1 + k] == ToolResult(CallId(k), bodies[k])
    ensures forall k :: 1 + |bodies| <= k < |ms| ==> ms[k] == UserText(NOTICE)
  {
    [Message(Assistant, "", CallsOf(tool, |bodies|), "", [], [])] + ResultsOf(bodies) + NoticesOf(tail)
  }

  /** A run can hold such a history. */
  lemma HistoryIsWellFormed(tool: string, bodies: seq<string>, tail: nat)
    ensures WellFormed(History(tool, bodies, tail))
  {
    var calls, results := CallsOf(tool, |bodies|), ResultsOf(bodies);
    var first := [Message(Assistant, "", calls, "", [], [])];
    assert first[..0] == [];
    assert Scan(START, first) == Expect(false, CallIds(calls));
    ScanConcat(START, first, results);
    ReadResults(false, CallIds(calls), results);
    assert CallIds(calls)[|results|..] == [];
    UserMessagesKeep(first + results, NoticesOf(tail));
  }

  lemma {:induction false} CallsAreNamed(tool: string, calls: seq<ToolCall>)
    requires tool != "" && forall k :: 0 <= k < |calls| ==> calls[k].id != "" && calls[k].name == tool
    ensures forall k :: 0 <= k < |calls| ==> NameOf(AddCalls(map[], calls), calls[k].id) == tool
  {
    if calls != [] {
      CallsAreNamed(tool, calls[..|calls| - 1]);
    }
  }

  lemma {:induction false} NoCallsNoNames(ms: seq<Message>, n: nat)
    requires 0 < n <= |ms| && forall k :: 1 <= k < |ms| ==> ms[k].toolCalls == []
    ensures ToolNames(ms[..n]) == AddCalls(map[], ms[0].toolCalls)
  {
    assert ms[..n][..n - 1] == ms[..n - 1];
    if n > 1 {
      NoCallsNoNames(ms, n - 1);
    } else {
      assert ms[..1][..0] == [];
      assert ToolNames([]) == map[];
    }
  }

  /** The name of every result is the tool's. */
  lemma HistoryNames(tool: string, bodies: seq<string>, tail: nat, k: nat)
    requires tool != "" && k < |bodies|
    ensures NameOf(ToolNames(History(tool, bodies, tail)), CallId(k)) == tool
  {
    var ms := History(tool, bodies, tail);
    NoCallsNoNames(ms, |ms|);
    assert ms[..|ms|] == ms;
    CallsAreNamed(tool, CallsOf(tool, |bodies|));
    assert CallsOf(tool, |bodies|)[k].id == CallId(k);
  }

  lemma HistoryKey(tool: string, bodies: seq<string>, tail: nat, j: nat)
    requires tool != "" && 0 < j <= |bodies|
    ensures var ms := History(tool, bodies, tail);
      && Key(ToolNames(ms), ms[j]) == tool + "\0" + bodies[j - 1]
      && ms[j].role == Tool && ms[j].content == bodies[j - 1]
  {
    hide ToolNames, NameOf, History;
    var ms := History(tool, bodies, tail);
    assert ms[1 + (j - 1)] == ToolResult(CallId(j - 1), bodies[j - 1]);
    HistoryNames(tool, bodies, tail, j - 1);
  }

  lemma LaterCopyIsEqual(tool: string, bodies: seq<string>, tail: nat, i: nat) returns (j: nat)
    requires tool != "" && 0 < i <= |bodies| && HasLaterCopy(History(tool, bodies, tail), i)
    ensures i < j <= |bodies| && bodies[j - 1] == bodies[i - 1]
  {
    hide ToolNames, IsPrunedPlaceholder, Key, History;
    var ms := History(tool, bodies, tail);
    j :| i < j < |ms| && Live(ms[j]) && Key(ToolNames(ms), ms[j]) == Key(ToolNames(ms), ms[i]);
    HistoryKey(tool, bodies, tail, i);
    HistoryKey(tool, bodies, tail, j);
    SameKey(tool, bodies[j - 1], tool, bodies[i - 1]);
  }

  lemma EqualIsLaterCopy(tool: string, bodies: seq<string>, tail: nat, i: nat, j: nat)
    requires tool != "" && 0 < i < j <= |bodies| && bodies[j - 1] == bodies[i - 1] && !IsPrunedPlaceholder(bodies[j - 1])
    ensures HasLaterCopy(History(tool, bodies, tail), i)
  {
    hide ToolNames, IsPrunedPlaceholder, Key, History;
    var ms := History(tool, bodies, tail);
    HistoryKey(tool, bodies, tail, i);
    HistoryKey(tool, bodies, tail, j);
    assert Live(ms[j]) && Key(ToolNames(ms), ms[j]) == Key(ToolNames(ms), ms[i]);
  }

  /** A body that no later one equals has no later copy. */
  lemma NoLaterCopy(tool: string, bodies: seq<string>, tail: nat, i: nat)
    requires tool != "" && 0 < i <= |bodies| && forall l :: i <= l < |bodies| ==> bodies[l] != bodies[i - 1]
    ensures !HasLaterCopy(History(tool, bodies, tail), i)
  {
    hide HasLaterCopy, History;
    if HasLaterCopy(History(tool, bodies, tail), i) {
      var j := LaterCopyIsEqual(tool, bodies, tail, i);
    }
  }

  /** What a body is replaced with, should it be. */
  lemma HistoryBody(tool: string, bodies: seq<string>, tail: nat, i: nat, n: nat)
    requires tool != "" && |tool| <= 40 && 0 < i <= |bodies|
    requires Tokens(bodies[i - 1]) == n && !IsPrunedPlaceholder(bodies[i - 1])
    ensures var ms := History(tool, bodies, tail);
      && ms[i].role == Tool && Live(ms[i]) && ms[i].content == bodies[i - 1] && Tokens(ms[i].content) == n
      && DuplicateBody(ms, i) == DuplicatePlaceholder(tool, n) && 1 <= Tokens(DuplicateBody(ms, i)) <= n / 40 + 40
      && StaleBody(ms, i) == PrunedPlaceholder(tool, n) && 1 <= Tokens(StaleBody(ms, i)) <= n / 40 + 40
      && (n >= 200 ==> Replaceable(ms, tail, i, DuplicateBody(ms, i)) && Replaceable(ms, tail, i, StaleBody(ms, i)))
  {
    hide ToolNames, NameOf, IsPrunedPlaceholder, History, Tokens, PrunedPlaceholder, DuplicatePlaceholder;
    var ms := History(tool, bodies, tail);
    assert ms[1 + (i - 1)] == ToolResult(CallId(i - 1), bodies[i - 1]);
    HistoryNames(tool, bodies, tail, i - 1);
    PlaceholderCost(tool, n);
  }

  lemma HistoryResult(tool: string, bodies: seq<string>, tail: nat, i: nat, n: nat)
    requires tool != "" && |tool| <= 40 && 0 < i <= |bodies| && Plain(bodies[i - 1], n)
    ensures var ms := History(tool, bodies, tail);
      && ms[i].role == Tool && Live(ms[i]) && ms[i].content == bodies[i - 1] && Tokens(ms[i].content) == n
      && DuplicateBody(ms, i) == DuplicatePlaceholder(tool, n) && 1 <= Tokens(DuplicateBody(ms, i)) <= n / 40 + 40
      && StaleBody(ms, i) == PrunedPlaceholder(tool, n) && 1 <= Tokens(StaleBody(ms, i)) <= n / 40 + 40
      && (n >= 200 ==> Replaceable(ms, tail, i, DuplicateBody(ms, i)) && Replaceable(ms, tail, i, StaleBody(ms, i)))
  {
    hide IsPrunedPlaceholder, History, Tokens, Plain, PrunedPlaceholder, DuplicatePlaceholder, DuplicateBody, StaleBody,
      Replaceable, Live;
    PlainBodies(bodies[i - 1], n);
    HistoryBody(tool, bodies, tail, i, n);
  }

  /** Notices fill no window. */
  lemma {:induction false} TailIsFree(ms: seq<Message>, preserve: nat, i: nat)
    requires i <= |ms| && forall k :: i <= k < |ms| ==> ms[k].role != Tool
    ensures RecentTokens(ms, preserve, i) == 0
    decreases |ms| - i
  {
    hide Collapsed, Tokens;
    if i < |ms| {
      TailIsFree(ms, preserve, i + 1);
    }
  }

  /** What one result adds to the window. */
  lemma WindowStep(ms: seq<Message>, preserve: nat, i: nat)
    requires i < |ms| && ms[i].role == Tool
    ensures Collapsed(ms, preserve, i) <==> Replaceable(ms, preserve, i, DuplicateBody(ms, i)) && HasLaterCopy(ms, i)
    ensures RecentTokens(ms, preserve, i)
      == RecentTokens(ms, preserve, i + 1) + if Collapsed(ms, preserve, i) then 0 else Tokens(ms[i].content)
    ensures DupTokens(ms, preserve, i)
      == DupTokens(ms, preserve, i + 1) + if Collapsed(ms, preserve, i) then Tokens(DuplicateBody(ms, i)) else 0
  {
    hide HasLaterCopy, Replaceable, Tokens, DuplicateBody;
  }

  /** A prune reclaims at least what one replaced body saves. */
  lemma {:induction false} ReclaimAtLeast(ms: seq<Message>, preserve: nat, k: nat, n: nat)
    requires k < |ms| && n <= |ms|
    ensures Reclaim(ms, preserve, n) >= if k < n then Tokens(ms[k].content) - Tokens(NewBody(ms, preserve, k)) else 0
  {
    hide HasLaterCopy, RecentTokens, IsPrunedPlaceholder, Tokens, DuplicateBody, StaleBody;
    if n > 0 {
      ReclaimAtLeast(ms, preserve, k, n - 1);
    }
  }

  lemma {:induction false} SavingsAtLeast(ms: seq<Message>, preserve: nat, k: nat, n: nat)
    requires k < n <= |ms| && Exposed(ms, preserve, k)
    ensures ExposedSavings(ms, preserve, n) >= Tokens(ms[k].content) - Tokens(StaleBody(ms, k))
  {
    hide Collapsed, RecentTokens, DupTokens, IsPrunedPlaceholder, Tokens, StaleBody;
    if k < n - 1 {
      SavingsAtLeast(ms, preserve, k, n - 1);
    }
  }

  /* ---- the prune is not idempotent ---- */

  /** Results at 1 to 4: the newer `d` and `p` leave the window one token short, so `k` is
      kept and only the older `d` becomes a pointer. */
  lemma PointerFillsWindow(ms: seq<Message>, preserve: nat)
    requires |ms| >= 5
    requires ms[1].role == Tool && ms[2].role == Tool && ms[3].role == Tool && ms[4].role == Tool
    requires !HasLaterCopy(ms, 1) && HasLaterCopy(ms, 2) && !HasLaterCopy(ms, 3) && !HasLaterCopy(ms, 4)
    requires Replaceable(ms, preserve, 1, StaleBody(ms, 1)) && Replaceable(ms, preserve, 2, DuplicateBody(ms, 2))
    requires Tokens(ms[2].content) == Tokens(ms[3].content) == 21000 && Tokens(ms[4].content) == 18999
    requires RecentTokens(ms, preserve, 5) == 0 && 1 <= Tokens(DuplicateBody(ms, 2)) <= 1000
    ensures Exposed(ms, preserve, 1) && Reclaim(ms, preserve, |ms|) >= MIN_RECLAIM_TOKENS
  {
    hide HasLaterCopy, Reclaim, DuplicateBody, StaleBody, Replaceable, RecentTokens, DupTokens, Collapsed, Stale,
      Tokens;
    WindowStep(ms, preserve, 4);
    WindowStep(ms, preserve, 3);
    WindowStep(ms, preserve, 2);
    WindowStep(ms, preserve, 1);
    ReclaimAtLeast(ms, preserve, 2, |ms|);
  }

  lemma PointerHistory(tool: string, k: string, d: string, p: string, preserve: nat)
    requires tool != "" && |tool| <= 40
    requires Plain(k, 30000) && Plain(d, 21000) && Plain(p, 18999) && k != d && k != p && d != p
    ensures var ms := History(tool, [k, d, d, p], preserve);
      Exposed(ms, preserve, 1) && Reclaim(ms, preserve, |ms|) >= MIN_RECLAIM_TOKENS
  {
    hide Live, Tokens, Plain, HasLaterCopy, Reclaim, History, DuplicateBody, StaleBody, Replaceable, RecentTokens,
      Exposed,
      PrunedPlaceholder, DuplicatePlaceholder, IsPrunedPlaceholder;
    var bodies := [k, d, d, p];
    assert bodies[0] == k && bodies[1] == d && bodies[2] == d && bodies[3] == p;
    PlainBodies(d, 21000);
    HistoryResult(tool, bodies, preserve, 1, 30000);
    HistoryResult(tool, bodies, preserve, 2, 21000);
    HistoryResult(tool, bodies, preserve, 3, 21000);
    HistoryResult(tool, bodies, preserve, 4, 18999);
    NoLaterCopy(tool, bodies, preserve, 1);
    NoLaterCopy(tool, bodies, preserve, 3);
    NoLaterCopy(tool, bodies, preserve, 4);
    EqualIsLaterCopy(tool, bodies, preserve, 2, 3);
    TailIsFree(History(tool, bodies, preserve), preserve, 5);
    PointerFillsWindow(History(tool, bodies, preserve), preserve);
  }

  /** For every tail there is a history a run can hold whose first prune keeps a body that
      the second one drops. */
  lemma PruneIsNotIdempotent(tool: string, preserve: nat) returns (ms: seq<Message>)
    requires tool != "" && |tool| <= 40
    ensures |ms| > 1 + preserve && WellFormed(ms)
    ensures var once := Pruned(ms, preserve).0;
      var twice := Pruned(once, preserve).0;
      once[1].content == ms[1].content && twice[1].content == PrunedPlaceholder(tool, 30000) != ms[1].content
  {
    hide DuplicatePlaceholder, PrunedPlaceholder, IsPrunedPlaceholder, Reclaim, Rewritten, Exposed, ToolNames, Tokens,
      ExposedSavings, WellFormed, History, StaleBody, DuplicateBody;
    var k, d, p := PlainRun('k', 30000), PlainRun('d', 21000), PlainRun('p', 18999);
    assert k[0] == 'k' && d[0] == 'd' && p[0] == 'p';
    var bodies := [k, d, d, p];
    ms := History(tool, bodies, preserve);
    HistoryIsWellFormed(tool, bodies, preserve);
    PointerHistory(tool, k, d, p, preserve);
    HistoryResult(tool, bodies, preserve, 1, 30000);
    SavingsAtLeast(ms, preserve, 1, |ms|);
    SecondReclaim(ms, preserve, |ms|);
    StaleTwiceIffExposed(ms, preserve, 1);
    NoNewDuplicates(ms, preserve, 1);
    RewrittenAt(Rewritten(ms, preserve), preserve, 1);
  }

  lemma RewrittenAt(ms: seq<Message>, preserve: nat, k: nat)
    requires k < |ms|
    ensures Rewritten(ms, preserve)[k].content == NewBody(ms, preserve, k)
  {
    hide NewBody;
  }

  /* ---- the newest copy may go too ---- */

  /** For every tail there is a history a run can hold where the prune replaces a result by
      a pointer and, in the same run, the only copy it points at. */
  lemma NewestCopyCanGo(tool: string, preserve: nat) returns (ms: seq<Message>)
    requires tool != "" && |tool| <= 40
    ensures |ms| > 2 + preserve && WellFormed(ms) && ms[1].content == ms[2].content
    ensures var out := Pruned(ms, preserve).0;
      && out[1].content == DuplicatePlaceholder(tool, 21000)
      && out[2].content == PrunedPlaceholder(tool, 21000)
      && forall k :: 0 <= k < |ms| ==> out[k].content != ms[1].content
  {
    hide DuplicatePlaceholder, PrunedPlaceholder, IsPrunedPlaceholder, Reclaim, Tokens, WellFormed, HasLaterCopy,
      History,
      Rewritten, DuplicateBody, StaleBody, Replaceable, RecentTokens, Collapsed;
    var d, p := PlainRun('d', 21000), PlainRun('p', 40000);
    assert d[0] == 'd' && p[0] == 'p';
    var bodies := [d, d, p];
    ms := History(tool, bodies, preserve);
    HistoryIsWellFormed(tool, bodies, preserve);
    HistoryResult(tool, bodies, preserve, 1, 21000);
    HistoryResult(tool, bodies, preserve, 2, 21000);
    HistoryResult(tool, bodies, preserve, 3, 40000);
    EqualIsLaterCopy(tool, bodies, preserve, 1, 2);
    NoLaterCopy(tool, bodies, preserve, 2);
    NoLaterCopy(tool, bodies, preserve, 3);
    TailIsFree(ms, preserve, 4);
    WindowStep(ms, preserve, 3);
    WindowStep(ms, preserve, 2);
    WindowStep(ms, preserve, 1);
    ReclaimAtLeast(ms, preserve, 1, |ms|);
    RewrittenAt(ms, preserve, 1);
    RewrittenAt(ms, preserve, 2);
    forall k | 0 <= k < |ms| ensures Pruned(ms, preserve).0[k].content != d {
      PruneTouchesOnlyStaleResults(ms, preserve, k);
      if k != 1 && k != 2 {
        OthersDiffer(tool, d, p, preserve, k);
      }
    }
  }

  lemma OthersDiffer(tool: string, d: string, p: string, preserve: nat, k: nat)
    requires |d| > 100 && p != d && !IsPrunedPlaceholder(d)
    requires k < |History(tool, [d, d, p], preserve)| && k != 1 && k != 2
    ensures History(tool, [d, d, p], preserve)[k].content != d
  {
    hide History, IsPrunedPlaceholder;
    var ms := History(tool, [d, d, p], preserve);
    assert ms[1 + 2] == ToolResult(CallId(2), p);
  }

  /* ---- an old body goes ---- */

  /** For every tail and every large body there is a history a run can hold where the prune
      replaces that body: a tool turn with the body and then a recent one. */
  lemma OldBodyGoes(tool: string, body: string, recent: string, preserve: nat) returns (ms: seq<Message>)
    requires tool != "" && |tool| <= 40
    requires Tokens(body) >= 21000 && !IsPrunedPlaceholder(body) && body != recent && Plain(recent, 40000)
    ensures ms == History(tool, [body, recent], preserve) && WellFormed(ms)
    ensures ms[1].content == body && Pruned(ms, preserve).0[1].content == PrunedPlaceholder(tool, Tokens(body)) != body
  {
    hide DuplicatePlaceholder, PrunedPlaceholder, IsPrunedPlaceholder, Reclaim, Tokens, WellFormed, HasLaterCopy,
      History, Rewritten, DuplicateBody, StaleBody, Replaceable, RecentTokens, Collapsed, Plain;
    var bodies := [body, recent];
    ms := History(tool, bodies, preserve);
    HistoryIsWellFormed(tool, bodies, preserve);
    HistoryBody(tool, bodies, preserve, 1, Tokens(body));
    HistoryResult(tool, bodies, preserve, 2, 40000);
    NoLaterCopy(tool, bodies, preserve, 1);
    NoLaterCopy(tool, bodies, preserve, 2);
    TailIsFree(ms, preserve, 3);
    WindowStep(ms, preserve, 2);
    WindowStep(ms, preserve, 1);
    ReclaimAtLeast(ms, preserve, 1, |ms|);
    RewrittenAt(ms, preserve, 1);
  }

  const OTHER_TOOL := "bash"

  /** One turn that calls a tool and then another one, their results, and a tail of notices. */
  function TwoTools(tool: string, arguments: string, body: string, recent: string, tail: nat): (ms: seq<Message>)
    ensures |ms| == 3 + tail
    ensures ms[0] == Message(Assistant, "", [ToolCall("1", tool, arguments), ToolCall("2", OTHER_TOOL, "{}")], "", [], [])
    ensures ms[1] == ToolResult("1", body) && ms[2] == ToolResult("2", recent)
    ensures forall k :: 3 <= k < |ms| ==> ms[k] == UserText(NOTICE)
  {
    [Message(Assistant, "", [ToolCall("1", tool, arguments), ToolCall("2", OTHER_TOOL, "{}")], "", [], []),
     ToolResult("1", body), ToolResult("2", recent)] + NoticesOf(tail)
  }

  lemma TwoToolsWellFormed(tool: string, arguments: string, body: string, recent: string, tail: nat)
    ensures WellFormed(TwoTools(tool, arguments, body, recent, tail))
  {
    var calls := [ToolCall("1", tool, arguments), ToolCall("2", OTHER_TOOL, "{}")];
    var first, results := [Message(Assistant, "", calls, "", [], [])], [ToolResult("1", body), ToolResult("2", recent)];
    assert first[..0] == [];
    assert Scan(START, first) == Expect(false, CallIds(calls));
    ScanConcat(START, first, results);
    ReadResults(false, CallIds(calls), results);
    assert CallIds(calls)[2..] == [];
    UserMessagesKeep(first + results, NoticesOf(tail));
    assert TwoTools(tool, arguments, body, recent, tail) == first + results + NoticesOf(tail);
  }

  lemma TwoToolNames(tool: string, arguments: string, body: string, recent: string, tail: nat)
    requires tool != ""
    ensures var names := ToolNames(TwoTools(tool, arguments, body, recent, tail));
      NameOf(names, "1") == tool && NameOf(names, "2") == OTHER_TOOL
  {
    var ms := TwoTools(tool, arguments, body, recent, tail);
    var a, b := ToolCall("1", tool, arguments), ToolCall("2", OTHER_TOOL, "{}");
    NoCallsNoNames(ms, |ms|);
    assert ms[..|ms|] == ms;
    assert [a, b][..1] == [a] && [a][..0] == [];
    assert AddCalls(map[], [a]) == map["1" := tool];
  }

  lemma TwoToolCopies(tool: string, arguments: string, body: string, recent: string, tail: nat)
    requires tool != "" && tool[0] != OTHER_TOOL[0]
    ensures var ms := TwoTools(tool, arguments, body, recent, tail); !HasLaterCopy(ms, 1) && !HasLaterCopy(ms, 2)
  {
    hide IsPrunedPlaceholder, ToolNames, NameOf;
    var ms := TwoTools(tool, arguments, body, recent, tail);
    TwoToolNames(tool, arguments, body, recent, tail);
    assert Key(ToolNames(ms), ms[1])[0] == tool[0] && Key(ToolNames(ms), ms[2])[0] == OTHER_TOOL[0];
  }

  /** In such a turn the prune takes the first body, when it is large. */
  lemma FirstBodyGoes(tool: string, arguments: string, body: string, recent: string, preserve: nat)
    requires tool != "" && |tool| <= 40 && tool[0] != OTHER_TOOL[0]
    requires Tokens(body) >= 21000 && !IsPrunedPlaceholder(body) && Tokens(recent) == 40000
    ensures var ms := TwoTools(tool, arguments, body, recent, preserve);
      Pruned(ms, preserve).0[1].content == PrunedPlaceholder(tool, Tokens(body)) != body
  {
    hide DuplicatePlaceholder, PrunedPlaceholder, IsPrunedPlaceholder, Reclaim, Tokens, HasLaterCopy, Rewritten,
      RecentTokens, Collapsed, ToolNames, NameOf, TwoTools;
    var ms := TwoTools(tool, arguments, body, recent, preserve);
    TwoToolNames(tool, arguments, body, recent, preserve);
    TwoToolCopies(tool, arguments, body, recent, preserve);
    PlaceholderCost(tool, Tokens(body));
    TailIsFree(ms, preserve, 3);
    WindowStep(ms, preserve, 2);
    WindowStep(ms, preserve, 1);
    ReclaimAtLeast(ms, preserve, 1, |ms|);
    RewrittenAt(ms, preserve, 1);
  }

  /* ---- placeholders are one line ---- */

  lemma {:induction false} DecimalIsOneLine(n: nat)
    ensures '\n' !in Decimal(n)
  {
    if n >= 10 {
      DecimalIsOneLine(n / 10);
    }
  }

  lemma JoinedLine(a: string, b: string)
    requires '\n' !in a && '\n' !in b
    ensures '\n' !in a + b
  {
  }

  /** Joining pieces of one line. */
  lemma LineOf(a: string, b: string, c: string, d: string, e: string, f: string, g: string)
    requires '\n' !in a && '\n' !in b && '\n' !in c && '\n' !in d && '\n' !in e && '\n' !in f && '\n' !in g
    ensures '\n' !in a + b + c + d + e + f + g
  {
    JoinedLine(a, b);
    JoinedLine(a + b, c);
    JoinedLine(a + b + c, d);
    JoinedLine(a + b + c + d, e);
    JoinedLine(a + b + c + d + e, f);
    JoinedLine(a + b + c + d + e + f, g);
  }

  lemma SharedWords()
    ensures '\n' !in PRUNED_PREFIX && '\n' !in " output (~" && '\n' !in DASH && '\n' !in "duplicate " && '\n' !in "tool"
  {
  }

  lemma StaleWords()
    ensures '\n' !in " tokens) to reclaim context " && '\n' !in " re-run the tool if you need it again]"
  {
  }

  lemma DuplicateWords()
    ensures '\n' !in " tokens) " && '\n' !in " identical to a later result still in context]"
  {
  }

  lemma StaleIsOneLine(tool: string, n: nat)
    requires '\n' !in ToolLabel(tool) && '\n' !in Decimal(n)
    ensures '\n' !in PrunedPlaceholder(tool, n)
  {
    hide Decimal, ToolLabel, PRUNED_PREFIX, DASH;
    SharedWords();
    StaleWords();
    LineOf(PRUNED_PREFIX, ToolLabel(tool), " output (~", Decimal(n), " tokens) to reclaim context ", DASH,
           " re-run the tool if you need it again]");
  }

  lemma DuplicateIsOneLine(tool: string, n: nat)
    requires '\n' !in ToolLabel(tool) && '\n' !in Decimal(n)
    ensures '\n' !in DuplicatePlaceholder(tool, n)
  {
    hide Decimal, ToolLabel, PRUNED_PREFIX, DASH;
    SharedWords();
    DuplicateWords();
    JoinedLine(PRUNED_PREFIX, "duplicate ");
    LineOf(PRUNED_PREFIX + "duplicate ", ToolLabel(tool), " output (~", Decimal(n), " tokens) ", DASH,
           " identical to a later result still in context]");
  }

  lemma PlaceholdersAreOneLine(tool: string, n: nat)
    requires '\n' !in tool
    ensures '\n' !in PrunedPlaceholder(tool, n) && '\n' !in DuplicatePlaceholder(tool, n)
  {
    hide Decimal, PrunedPlaceholder, DuplicatePlaceholder;
    DecimalIsOneLine(n);
    SharedWords();
    StaleIsOneLine(tool, n);
    DuplicateIsOneLine(tool, n);
  }

  /** What the prune puts in place of a body of a tool with a one-line name is one line. */
  lemma PrunedIsOneLine(ms: seq<Message>, preserve: nat, i: nat)
    requires i < |ms| && '\n' !in NameOf(ToolNames(ms), ms[i].toolCallId)
    ensures |Pruned(ms, preserve).0| == |ms|
    ensures Pruned(ms, preserve).0[i] != ms[i] ==> '\n' !in Pruned(ms, preserve).0[i].content
  {
    hide Collapsed, Stale, Tokens, PrunedPlaceholder, DuplicatePlaceholder, ToolNames, NameOf, Reclaim;
    PlaceholdersAreOneLine(NameOf(ToolNames(ms), ms[i].toolCallId), Tokens(ms[i].content));
  }
}
