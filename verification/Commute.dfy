/** What the two passes over stale history leave of what later compactions extract from it. */
module Commute {
  import opened Text
  import opened Transcript
  import opened Entries
  import opened Extract
  import opened Listing
  import opened Prune
  import opened Judge

  /** The same call, up to arguments that no state reader parses. */
  predicate SameReadableCall(c: ToolCall, c': ToolCall) {
    c'.id == c.id && c'.name == c.name && (c'.arguments == c.arguments || JudgeableCall(c.name))
  }

  predicate SameReadableCalls(cs: seq<ToolCall>, cs': seq<ToolCall>) {
    |cs'| == |cs| && forall k :: 0 <= k < |cs| ==> SameReadableCall(cs[k], cs'[k])
  }

  predicate IsBlank(s: string) {
    TrimSpace(s) == ""
  }

  /** A rewrite both passes stay within: identity fields, user text, and whether a result
      is blank are kept. */
  predicate SameReadable(m: Message, m': Message) {
    && m'.role == m.role && m'.toolCallId == m.toolCallId
    && SameReadableCalls(m.toolCalls, m'.toolCalls)
    && (m.role == User ==> m'.content == m.content)
    && (m.role == Tool ==> (IsBlank(m'.content) <==> IsBlank(m.content)))
  }

  predicate Rewrites(ms: seq<Message>, ms': seq<Message>) {
    |ms'| == |ms| && forall k :: 0 <= k < |ms| ==> SameReadable(ms[k], ms'[k])
  }

  /* ---- calls ---- */

  lemma {:induction false} CallsRewritten(ms: seq<Message>, ms': seq<Message>)
    requires Rewrites(ms, ms')
    ensures SameReadableCalls(AllCalls(ms), AllCalls(ms'))
  {
    hide SameReadableCall, IsBlank;
    if ms != [] {
      CallsRewritten(ms[..|ms| - 1], ms'[..|ms| - 1]);
      assert SameReadable(ms[|ms| - 1], ms'[|ms| - 1]);
    }
  }

  lemma {:induction false} PlanRewritten(r: Readers, cs: seq<ToolCall>, cs': seq<ToolCall>)
    requires SameReadableCalls(cs, cs')
    ensures LatestPlan(r, cs') == LatestPlan(r, cs)
  {
    if cs != [] {
      PlanRewritten(r, cs[..|cs| - 1], cs'[..|cs| - 1]);
      assert SameReadableCall(cs[|cs| - 1], cs'[|cs| - 1]);
    }
  }

  lemma {:induction false} PathsRewritten(r: Readers, cs: seq<ToolCall>, cs': seq<ToolCall>)
    requires SameReadableCalls(cs, cs')
    ensures PathSequence(r, cs') == PathSequence(r, cs)
  {
    if cs != [] {
      PathsRewritten(r, cs[..|cs| - 1], cs'[..|cs| - 1]);
      assert SameReadableCall(cs[|cs| - 1], cs'[|cs| - 1]);
    }
  }

  lemma {:induction false} SkillIdsRewritten(r: Readers, cs: seq<ToolCall>, cs': seq<ToolCall>)
    requires SameReadableCalls(cs, cs')
    ensures SkillById(r, cs') == SkillById(r, cs)
  {
    if cs != [] {
      SkillIdsRewritten(r, cs[..|cs| - 1], cs'[..|cs| - 1]);
      assert SameReadableCall(cs[|cs| - 1], cs'[|cs| - 1]);
    }
  }

  /* ---- results and instructions ---- */

  /** The same results, up to a non-blank body. */
  predicate SameResults(rs: seq<Message>, rs': seq<Message>) {
    |rs'| == |rs|
    && forall k :: 0 <= k < |rs| ==> rs'[k].toolCallId == rs[k].toolCallId && (IsBlank(rs'[k].content) <==> IsBlank(rs[k].content))
  }

  lemma {:induction false} ResultsRewritten(ms: seq<Message>, ms': seq<Message>)
    requires Rewrites(ms, ms')
    ensures SameResults(Results(ms), Results(ms'))
  {
    hide SameReadableCalls, IsBlank;
    if ms != [] {
      ResultsRewritten(ms[..|ms| - 1], ms'[..|ms| - 1]);
      assert SameReadable(ms[|ms| - 1], ms'[|ms| - 1]);
    }
  }

  lemma {:induction false} SkillNamesRewritten(r: Readers, rs: seq<Message>, rs': seq<Message>, ids: map<string, string>)
    requires SameResults(rs, rs')
    ensures Names(SkillEvents(r, rs', ids)) == Names(SkillEvents(r, rs, ids))
  {
    if rs != [] {
      var n := |rs| - 1;
      SkillNamesRewritten(r, rs[..n], rs'[..n], ids);
      NamesConcat(SkillEvents(r, rs[..n], ids), SkillEvent(r, rs[n], ids));
      NamesConcat(SkillEvents(r, rs'[..n], ids), SkillEvent(r, rs'[n], ids));
      assert Names(SkillEvent(r, rs[n], ids)) == Names(SkillEvent(r, rs'[n], ids));
    }
  }

  lemma {:induction false} InstructionsRewritten(r: Readers, ms: seq<Message>, ms': seq<Message>)
    requires Rewrites(ms, ms')
    ensures InstructionEvents(r, ms') == InstructionEvents(r, ms)
  {
    hide SameReadableCalls, IsBlank, TrimSpace;
    if ms != [] {
      InstructionsRewritten(r, ms[..|ms| - 1], ms'[..|ms| - 1]);
      assert SameReadable(ms[|ms| - 1], ms'[|ms| - 1]);
    }
  }

  /** What extraction reads off both histories alike: the plan, the edited paths in order,
      the loaded skills in order, and the project instructions. */
  ghost predicate SameExtraction(r: Readers, ms: seq<Message>, ms': seq<Message>) {
    && LatestPlan(r, AllCalls(ms')) == LatestPlan(r, AllCalls(ms))
    && Names(EditEntries(r, ms')) == Names(EditEntries(r, ms))
    && Names(Skills(r, ms')) == Names(Skills(r, ms))
    && Instructions(r, ms') == Instructions(r, ms)
  }

  lemma RewriteKeepsExtraction(r: Readers, ms: seq<Message>, ms': seq<Message>)
    requires Rewrites(ms, ms')
    ensures SameExtraction(r, ms, ms')
  {
    hide Rewrites, SameReadableCalls, LatestPlan, PathSequence, PathById, SkillById, SkillEvents, Results, AllCalls,
      LastSeen, FirstSeen, InstructionEvents, Notes, Bodies;
    CallsRewritten(ms, ms');
    ResultsRewritten(ms, ms');
    PlanRewritten(r, AllCalls(ms), AllCalls(ms'));
    PathsRewritten(r, AllCalls(ms), AllCalls(ms'));
    SkillIdsRewritten(r, AllCalls(ms), AllCalls(ms'));
    SkillNamesRewritten(r, Results(ms), Results(ms'), SkillById(r, AllCalls(ms)));
    InstructionsRewritten(r, ms, ms');
    assert Names(EditEntries(r, ms)) == LastSeen(PathSequence(r, AllCalls(ms)));
    assert Names(EditEntries(r, ms')) == LastSeen(PathSequence(r, AllCalls(ms')));
    SkillsNamed(r, ms);
    SkillsNamed(r, ms');
  }

  lemma SkillsNamed(r: Readers, ms: seq<Message>)
    ensures Names(Skills(r, ms)) == FirstSeen(Names(SkillEvents(r, Results(ms), SkillById(r, AllCalls(ms)))))
  {
    hide SkillEvents, SkillById, Results, AllCalls, FirstSeen, Bodies;
  }

  /* ---- the two passes are such rewrites ---- */

  lemma {:induction false} SubstanceIsNotBlank(s: string)
    requires Tokens(s) >= 1
    ensures !IsBlank(s)
  {
    TrimKeepsSubstance(s);
  }

  lemma PlaceholderIsNotBlank(s: string)
    requires IsPrunedPlaceholder(s)
    ensures !IsBlank(s)
  {
    hide TrimSpace;
    assert PRUNED_PREFIX != "";
  }

  lemma PruneIsRewrite(ms: seq<Message>, preserve: nat)
    ensures Rewrites(ms, Pruned(ms, preserve).0)
  {
    hide Pruned, IsPrunedPlaceholder, IsBlank, Tokens, JudgeableCall;
    PruneKeepsFrames(ms, preserve);
    var out := Pruned(ms, preserve).0;
    forall k | 0 <= k < |ms| ensures SameReadable(ms[k], out[k]) {
      PruneTouchesOnlyStaleResults(ms, preserve, k);
      if out[k] != ms[k] {
        SubstanceIsNotBlank(ms[k].content);
        PlaceholderIsNotBlank(out[k].content);
      }
    }
  }

  lemma PruneCommutes(r: Readers, ms: seq<Message>, preserve: nat)
    ensures SameExtraction(r, ms, Pruned(ms, preserve).0)
  {
    hide SameExtraction, Pruned, Rewrites;
    PruneIsRewrite(ms, preserve);
    RewriteKeepsExtraction(r, ms, Pruned(ms, preserve).0);
  }

  /** The same for the judge, whose replacement texts are never blank. */
  lemma JudgeCommutes(r: Readers, ms: seq<Message>, preserve: nat, ruling: Ruling)
    requires forall i: nat :: i < |ms| ==> !IsBlank(ruling.recover(i))
    ensures |Pruned(ms, preserve).0| == |ms|
    ensures SameExtraction(r, ms, Judged(ms, Pruned(ms, preserve).0, preserve, ruling))
  {
    hide SameExtraction, Pruned, IsPrunedPlaceholder, IsBlank, Tokens, JudgeableCall;
    FloorKeepsCalls(ms, preserve);
    var base := Pruned(ms, preserve).0;
    var out := Judged(ms, base, preserve, ruling);
    forall k: nat | k < |ms| ensures SameReadable(ms[k], out[k]) {
      JudgeRewrites(ms, base, preserve, ruling, k);
    }
    RewriteKeepsExtraction(r, ms, out);
  }

  lemma JudgeRewrites(ms: seq<Message>, base: seq<Message>, preserve: nat, ruling: Ruling, k: nat)
    requires k < |ms| == |base| && base == Pruned(ms, preserve).0 && base[k] == ms[k].(content := base[k].content)
    requires !IsBlank(ruling.recover(k))
    ensures SameReadable(ms[k], Judged(ms, base, preserve, ruling)[k])
  {
    hide Pruned, IsPrunedPlaceholder, IsBlank, Tokens, JudgeableCall, VerdictOn, ResultCandidate, ProseCandidate,
      ArgumentsCandidate, Judgeable;
    PruneTouchesOnlyStaleResults(ms, preserve, k);
    if base[k] != ms[k] {
      SubstanceIsNotBlank(ms[k].content);
      PlaceholderIsNotBlank(base[k].content);
    }
    if JudgedResult(ms, preserve, k) {
      SubstanceIsNotBlank(ms[k].content);
    }
    var calls := CallsFor(ms, preserve, ruling, k);
    forall j | 0 <= j < |calls| ensures SameReadableCall(ms[k].toolCalls[j], calls[j]) {
    }
  }

  /* ---- the loaded tools ---- */

  /** The carried tools are those some tool-search result lists. */
  lemma ToolsAreListed(r: Readers, ms: seq<Message>, name: string)
    ensures name in Names(ToolSchemas(r, ms))
      <==> exists k :: 0 <= k < |ms| && Lists(r, ms[k], SearchIds(AllCalls(ms)), name)
  {
    hide ToolEvents, Results, SearchIds, AllCalls, FirstSeenEntries, Lists, Bodies;
    var ids := SearchIds(AllCalls(ms));
    assert ms[..|ms|] == ms;
    var k := ToolBodies(r, ms, ids, name, |ms|);
    ListingNames(ToolEvents(r, Results(ms), ids), name);
  }

  /** A placeholder lists no tool: it does not open as a tool listing does. */
  ghost predicate PlaceholdersListNothing(r: Readers) {
    forall s :: IsPrunedPlaceholder(s) ==> r.toolEntries(s) == []
  }

  lemma {:induction false} SearchIdsRewritten(cs: seq<ToolCall>, cs': seq<ToolCall>)
    requires SameReadableCalls(cs, cs')
    ensures SearchIds(cs') == SearchIds(cs)
  {
    if cs != [] {
      SearchIdsRewritten(cs[..|cs| - 1], cs'[..|cs| - 1]);
      assert SameReadableCall(cs[|cs| - 1], cs'[|cs| - 1]);
    }
  }

  /** A tool is still carried after the prune exactly when a result the prune kept lists it:
      unlike the rest of the extracted state, a schema whose listing went is lost. */
  lemma ToolSurvivesPruneIff(r: Readers, ms: seq<Message>, preserve: nat, name: string)
    requires PlaceholdersListNothing(r)
    ensures var out := Pruned(ms, preserve).0;
      |out| == |ms| &&
      (name in Names(ToolSchemas(r, out)) <==>
        exists k :: 0 <= k < |ms| && out[k] == ms[k] && Lists(r, ms[k], SearchIds(AllCalls(ms)), name))
  {
    hide Pruned, IsPrunedPlaceholder, ToolSchemas, SearchIds, AllCalls, Tokens;
    PruneKeepsFrames(ms, preserve);
    var out, ids := Pruned(ms, preserve).0, SearchIds(AllCalls(ms));
    forall k | 0 <= k < |ms| ensures Lists(r, out[k], ids, name) <==> out[k] == ms[k] && Lists(r, ms[k], ids, name) {
      PruneTouchesOnlyStaleResults(ms, preserve, k);
      assert out[k] != ms[k] ==> r.toolEntries(out[k].content) == [];
    }
    PruneIsRewrite(ms, preserve);
    CallsRewritten(ms, out);
    SearchIdsRewritten(AllCalls(ms), AllCalls(out));
    ToolsAreListed(r, out, name);
  }

  /* -- a schema that goes -- */

  const LISTING_OPENS := "Loaded "

  /** Only a text that opens as a listing lists a tool. */
  ghost predicate ListingsOpen(r: Readers) {
    forall s :: r.toolEntries(s) != [] ==> HasPrefix(TrimSpace(s), LISTING_OPENS)
  }

  lemma ListingIsNoPlaceholder(s: string)
    requires HasPrefix(TrimSpace(s), LISTING_OPENS)
    ensures !IsPrunedPlaceholder(s)
  {
    hide TrimSpace;
    assert LISTING_OPENS[0] == 'L' && PRUNED_PREFIX[0] == '[';
  }

  lemma ListingsAreNoPlaceholders(r: Readers)
    requires ListingsOpen(r)
    ensures PlaceholdersListNothing(r)
  {
    hide IsPrunedPlaceholder, TrimSpace;
    forall s | IsPrunedPlaceholder(s) ensures r.toolEntries(s) == [] {
      if r.toolEntries(s) != [] {
        ListingIsNoPlaceholder(s);
      }
    }
  }

  /** A run of one other byte lists nothing. */
  lemma RunListsNothing(r: Readers, n: nat)
    requires ListingsOpen(r) && n > 0
    ensures r.toolEntries(PlainRun('r', n)) == []
  {
    hide TrimSpace;
    var s := PlainRun('r', n);
    TrimmedIsKept(s);
    assert LISTING_OPENS[0] == 'L' && s[0] == 'r';
  }

  lemma {:induction false} CallsOfFirst(ms: seq<Message>, n: nat)
    requires 0 < n <= |ms| && forall k :: 1 <= k < |ms| ==> ms[k].toolCalls == []
    ensures AllCalls(ms[..n]) == ms[0].toolCalls
  {
    assert ms[..n][..n - 1] == ms[..n - 1];
    if n > 1 {
      CallsOfFirst(ms, n - 1);
      assert AllCalls(ms[..n - 1]) + [] == AllCalls(ms[..n - 1]);
    } else {
      assert ms[..1][..0] == [] && [] + ms[0].toolCalls == ms[0].toolCalls;
    }
  }

  lemma {:induction false} SearchIsKnown(calls: seq<ToolCall>, k: nat)
    requires k < |calls| && calls[k].name == TOOL_SEARCH && calls[k].id != ""
    ensures calls[k].id in SearchIds(calls)
  {
    if k < |calls| - 1 {
      SearchIsKnown(calls[..|calls| - 1], k);
    }
  }

  lemma SearchesOf(bodies: seq<string>, tail: nat, k: nat)
    requires k < |bodies|
    ensures CallId(k) in SearchIds(AllCalls(History(TOOL_SEARCH, bodies, tail)))
  {
    hide SearchIds, AllCalls, CallId;
    var ms := History(TOOL_SEARCH, bodies, tail);
    CallsOfFirst(ms, |ms|);
    assert ms[..|ms|] == ms;
    CallIdIsSomething(k);
    SearchIsKnown(CallsOf(TOOL_SEARCH, |bodies|), k);
  }

  lemma CallIdIsSomething(k: nat)
    ensures CallId(k) != ""
  {
  }

  /** For every tail and every large listing there is a history a run can hold whose schemas
      are carried, and are gone once it is pruned. */
  lemma LoadedToolIsLost(r: Readers, listing: string, name: string, preserve: nat) returns (ms: seq<Message>)
    requires ListingsOpen(r) && Tokens(listing) >= 21000 && name != "" && name in Names(r.toolEntries(listing))
    ensures WellFormed(ms) && |ms| == 3 + preserve && ms[1].content == listing
    ensures name in Names(ToolSchemas(r, ms)) && name !in Names(ToolSchemas(r, Pruned(ms, preserve).0))
  {
    hide Tokens, WellFormed, Pruned, History, ToolSchemas, SearchIds, AllCalls, TrimSpace, IsPrunedPlaceholder,
      PrunedPlaceholder, PlaceholdersListNothing, CallId;
    var recent := PlainRun('r', 40000);
    RunListsNothing(r, 40000);
    ListingIsNoPlaceholder(listing);
    assert TOOL_SEARCH != "" && |TOOL_SEARCH| <= 40;
    ms := OldBodyGoes(TOOL_SEARCH, listing, recent, preserve);
    var bodies := [listing, recent];
    assert ms[1 + 0] == ToolResult(CallId(0), bodies[0]) && ms[1 + 1] == ToolResult(CallId(1), bodies[1]);
    SearchesOf(bodies, preserve, 0);
    CallIdIsSomething(0);
    ToolsAreListed(r, ms, name);
    assert Lists(r, ms[1], SearchIds(AllCalls(ms)), name);
    ListingsAreNoPlaceholders(r);
    ToolSurvivesPruneIff(r, ms, preserve, name);
  }

  /* ---- what becomes of a carried body ---- */

  /** A skill is carried with the capped body of the last result that loaded it. */
  lemma SkillIsCarried(r: Readers, ms: seq<Message>, name: string, k: nat, body: string)
    requires LastLoad(ms, SkillById(r, AllCalls(ms)), name, k, |ms|)
    ensures Entry(name, body) in Skills(r, ms) <==> body == r.capBody(TrimSpace(ms[k].content))
  {
    hide Skills, SkillById, AllCalls, LoadsSkill, TrimSpace;
    SkillIsListed(r, ms, name, body);
  }

  /** A rewritten result loads the same skill. */
  lemma LoadIsRewritten(m: Message, m': Message, ids: map<string, string>, name: string)
    requires SameReadable(m, m')
    ensures LoadsSkill(m', ids, name) <==> LoadsSkill(m, ids, name)
  {
    hide TrimSpace, SameReadableCalls;
  }

  lemma LastLoadIsRewritten(r: Readers, ms: seq<Message>, ms': seq<Message>, name: string, k: nat)
    requires Rewrites(ms, ms') && LastLoad(ms, SkillById(r, AllCalls(ms)), name, k, |ms|)
    ensures LastLoad(ms', SkillById(r, AllCalls(ms')), name, k, |ms'|)
  {
    hide SkillById, AllCalls, LoadsSkill, SameReadable, SameReadableCalls;
    CallsRewritten(ms, ms');
    SkillIdsRewritten(r, AllCalls(ms), AllCalls(ms'));
    forall j: nat | j < |ms| ensures LoadsSkill(ms'[j], SkillById(r, AllCalls(ms)), name)
      <==> LoadsSkill(ms[j], SkillById(r, AllCalls(ms)), name)
    {
      LoadIsRewritten(ms[j], ms'[j], SkillById(r, AllCalls(ms)), name);
    }
  }

  /** The cap keeps how a body opens, as far as the marker of a pruned one. */
  ghost predicate CapKeepsOpening(r: Readers) {
    forall s :: HasPrefix(r.capBody(s), PRUNED_PREFIX) <==> HasPrefix(s, PRUNED_PREFIX)
  }

  /** A carried skill body is unchanged by the prune exactly when the result it is read from
      was kept; otherwise the placeholder is carried. */
  lemma SkillBodySurvivesPruneIff(r: Readers, ms: seq<Message>, preserve: nat, name: string, k: nat)
    requires CapKeepsOpening(r) && LastLoad(ms, SkillById(r, AllCalls(ms)), name, k, |ms|)
    ensures var out := Pruned(ms, preserve).0;
      var carried := Entry(name, r.capBody(TrimSpace(ms[k].content)));
      && |out| == |ms| && carried in Skills(r, ms)
      && (carried in Skills(r, out) <==> out[k] == ms[k])
      && Entry(name, r.capBody(TrimSpace(out[k].content))) in Skills(r, out)
  {
    hide Pruned, Skills, SkillById, AllCalls, LastLoad, Rewrites, TrimSpace, Tokens;
    var out := Pruned(ms, preserve).0;
    PruneIsRewrite(ms, preserve);
    LastLoadInRange(ms, SkillById(r, AllCalls(ms)), name, k);
    LastLoadIsRewritten(r, ms, out, name, k);
    PruneTouchesOnlyStaleResults(ms, preserve, k);
    SkillIsCarried(r, ms, name, k, r.capBody(TrimSpace(ms[k].content)));
    SkillIsCarried(r, out, name, k, r.capBody(TrimSpace(ms[k].content)));
    SkillIsCarried(r, out, name, k, r.capBody(TrimSpace(out[k].content)));
    if out[k] != ms[k] {
      assert IsPrunedPlaceholder(out[k].content) && !IsPrunedPlaceholder(ms[k].content);
    }
  }

  lemma LastLoadInRange(ms: seq<Message>, ids: map<string, string>, name: string, k: nat)
    requires LastLoad(ms, ids, name, k, |ms|)
    ensures k < |ms|
  {
  }

  lemma TwoToolCalls(tool: string, arguments: string, body: string, recent: string, tail: nat)
    ensures AllCalls(TwoTools(tool, arguments, body, recent, tail))
         == [ToolCall("1", tool, arguments), ToolCall("2", OTHER_TOOL, "{}")]
  {
    var ms := TwoTools(tool, arguments, body, recent, tail);
    CallsOfFirst(ms, |ms|);
    assert ms[..|ms|] == ms;
  }

  /** For every tail and every large skill body there is a history a run can hold whose skill
      body is carried, and is the placeholder once it is pruned. */
  lemma SkillBodyIsLost(r: Readers, arguments: string, body: string, preserve: nat) returns (ms: seq<Message>)
    requires CapKeepsOpening(r) && Tokens(body) >= 21000 && !IsPrunedPlaceholder(body)
    ensures WellFormed(ms) && |ms| == 3 + preserve && ms[1].content == body
    ensures var name := if r.skillName(arguments) == "" then UNNAMED else r.skillName(arguments);
      var carried := Entry(name, r.capBody(TrimSpace(body)));
      carried in Skills(r, ms) && carried !in Skills(r, Pruned(ms, preserve).0)
  {
    hide Pruned, Tokens, IsPrunedPlaceholder, TrimSpace, WellFormed, TwoTools, Skills, AllCalls, PrunedPlaceholder;
    var recent := PlainRun('r', 40000);
    PlainBodies(recent, 40000);
    ms := TwoTools(SKILL, arguments, body, recent, preserve);
    TwoToolsWellFormed(SKILL, arguments, body, recent, preserve);
    FirstBodyGoes(SKILL, arguments, body, recent, preserve);
    TwoToolCalls(SKILL, arguments, body, recent, preserve);
    var name := if r.skillName(arguments) == "" then UNNAMED else r.skillName(arguments);
    SubstanceIsNotBlank(body);
    FirstLoads(r, arguments, body, recent, preserve);
    SkillBodySurvivesPruneIff(r, ms, preserve, name, 1);
  }

  lemma FirstLoads(r: Readers, arguments: string, body: string, recent: string, tail: nat)
    requires TrimSpace(body) != ""
    ensures var ms := TwoTools(SKILL, arguments, body, recent, tail);
      LastLoad(ms, SkillById(r, AllCalls(ms)), if r.skillName(arguments) == "" then UNNAMED else r.skillName(arguments), 1, |ms|)
  {
    hide TrimSpace, AllCalls, TwoTools;
    var ms := TwoTools(SKILL, arguments, body, recent, tail);
    var a, b := ToolCall("1", SKILL, arguments), ToolCall("2", OTHER_TOOL, "{}");
    TwoToolCalls(SKILL, arguments, body, recent, tail);
    OtherIsNoSkill();
    assert [a, b][..1] == [a] && [a][..0] == [];
    assert SkillById(r, [a]) == map["1" := r.skillName(arguments)];
    assert SkillById(r, [a, b]) == SkillById(r, [a]);
    assert ms[2].toolCallId == "2" != "1";
    assert forall j :: 1 < j < |ms| ==> !IsResult(ms[j]) || ms[j].toolCallId == "2";
  }

  lemma OtherIsNoSkill()
    ensures OTHER_TOOL != SKILL && OTHER_TOOL != WRITE_FILE && OTHER_TOOL != EDIT_FILE
  {
    assert OTHER_TOOL[0] == 'b' && SKILL[0] == 's' && WRITE_FILE[0] == 'w' && EDIT_FILE[0] == 'e';
  }

  /* -- and of a note -- */

  /** An edited path is listed with the note of the last result of its edits. */
  lemma NoteIsListed(r: Readers, ms: seq<Message>, path: string, k: nat, note: string)
    requires LastNote(ms, PathById(r, AllCalls(ms)), path, k, |ms|)
    ensures Entry(path, note) in EditEntries(r, ms) <==> note == r.editNote(ms[k].content)
  {
    hide EditEntries, PathById, AllCalls;
    EditIsListed(r, ms, path, note);
    var t := PathByIdIs(r, AllCalls(ms), ms[k].toolCallId);
    LastNoted(r, ms, path, k, note);
  }

  lemma LastNoted(r: Readers, ms: seq<Message>, path: string, k: nat, note: string)
    requires LastNote(ms, PathById(r, AllCalls(ms)), path, k, |ms|)
    ensures Noted(r, ms, path, note) <==> note == r.editNote(ms[k].content)
  {
    hide PathById, AllCalls, NotesEdit;
  }

  lemma {:induction false} PathIdsRewritten(r: Readers, cs: seq<ToolCall>, cs': seq<ToolCall>)
    requires SameReadableCalls(cs, cs')
    ensures PathById(r, cs') == PathById(r, cs)
  {
    if cs != [] {
      PathIdsRewritten(r, cs[..|cs| - 1], cs'[..|cs| - 1]);
      assert SameReadableCall(cs[|cs| - 1], cs'[|cs| - 1]);
    }
  }

  lemma LastNoteIsRewritten(r: Readers, ms: seq<Message>, ms': seq<Message>, path: string, k: nat)
    requires Rewrites(ms, ms') && LastNote(ms, PathById(r, AllCalls(ms)), path, k, |ms|)
    ensures LastNote(ms', PathById(r, AllCalls(ms')), path, k, |ms'|)
  {
    hide PathById, AllCalls, IsBlank, SameReadableCalls;
    CallsRewritten(ms, ms');
    PathIdsRewritten(r, AllCalls(ms), AllCalls(ms'));
    forall j: nat | j < |ms| ensures ms'[j].role == ms[j].role && ms'[j].toolCallId == ms[j].toolCallId {
      assert SameReadable(ms[j], ms'[j]);
    }
  }

  /** A note is the opening line of its result, so it opens with the marker exactly when a
      one-line result does. */
  ghost predicate NotesOpenAlike(r: Readers) {
    forall s :: && (HasPrefix(r.editNote(s), PRUNED_PREFIX) ==> IsPrunedPlaceholder(s))
                && (IsPrunedPlaceholder(s) && '\n' !in s ==> HasPrefix(r.editNote(s), PRUNED_PREFIX))
  }

  /** The note of an edit is unchanged by the prune exactly when the result it is read from
      was kept; otherwise it is read off the placeholder. */
  lemma EditNoteSurvivesPruneIff(r: Readers, ms: seq<Message>, preserve: nat, path: string, k: nat)
    requires NotesOpenAlike(r) && LastNote(ms, PathById(r, AllCalls(ms)), path, k, |ms|)
    requires '\n' !in NameOf(ToolNames(ms), ms[k].toolCallId)
    ensures var out := Pruned(ms, preserve).0;
      var listed := Entry(path, r.editNote(ms[k].content));
      && |out| == |ms| && listed in EditEntries(r, ms)
      && (listed in EditEntries(r, out) <==> out[k] == ms[k])
      && Entry(path, r.editNote(out[k].content)) in EditEntries(r, out)
  {
    hide Pruned, EditEntries, PathById, AllCalls, NotesEdit, Rewrites, Tokens, IsPrunedPlaceholder, ToolNames, NameOf;
    var out := Pruned(ms, preserve).0;
    PruneIsRewrite(ms, preserve);
    LastNoteIsRewritten(r, ms, out, path, k);
    PruneTouchesOnlyStaleResults(ms, preserve, k);
    PrunedIsOneLine(ms, preserve, k);
    NoteIsListed(r, ms, path, k, r.editNote(ms[k].content));
    NoteIsListed(r, out, path, k, r.editNote(ms[k].content));
    NoteIsListed(r, out, path, k, r.editNote(out[k].content));
  }

  /** For every tail and every large edit result there is a history a run can hold whose note
      is listed, and is read off the placeholder once it is pruned. */
  lemma EditNoteIsLost(r: Readers, arguments: string, body: string, preserve: nat) returns (ms: seq<Message>)
    requires NotesOpenAlike(r) && r.editPath(arguments) != "" && Tokens(body) >= 21000 && !IsPrunedPlaceholder(body)
    ensures WellFormed(ms) && |ms| == 3 + preserve && ms[1].content == body
    ensures var listed := Entry(r.editPath(arguments), r.editNote(body));
      listed in EditEntries(r, ms) && listed !in EditEntries(r, Pruned(ms, preserve).0)
  {
    hide Pruned, Tokens, IsPrunedPlaceholder, WellFormed, TwoTools, EditEntries, AllCalls, PrunedPlaceholder, ToolNames,
      NameOf, LastNote;
    var recent := PlainRun('r', 40000);
    PlainBodies(recent, 40000);
    ms := TwoTools(EDIT_FILE, arguments, body, recent, preserve);
    TwoToolsWellFormed(EDIT_FILE, arguments, body, recent, preserve);
    TwoToolNames(EDIT_FILE, arguments, body, recent, preserve);
    FirstBodyGoes(EDIT_FILE, arguments, body, recent, preserve);
    assert '\n' !in EDIT_FILE;
    FirstNotes(r, arguments, body, recent, preserve);
    EditNoteSurvivesPruneIff(r, ms, preserve, r.editPath(arguments), 1);
  }

  lemma FirstNotes(r: Readers, arguments: string, body: string, recent: string, tail: nat)
    requires r.editPath(arguments) != ""
    ensures var ms := TwoTools(EDIT_FILE, arguments, body, recent, tail);
      LastNote(ms, PathById(r, AllCalls(ms)), r.editPath(arguments), 1, |ms|)
  {
    hide AllCalls, TwoTools;
    var ms := TwoTools(EDIT_FILE, arguments, body, recent, tail);
    var a, b := ToolCall("1", EDIT_FILE, arguments), ToolCall("2", OTHER_TOOL, "{}");
    TwoToolCalls(EDIT_FILE, arguments, body, recent, tail);
    OtherIsNoSkill();
    assert [a, b][..1] == [a] && [a][..0] == [];
    assert PathById(r, [a]) == map["1" := r.editPath(arguments)];
    assert PathById(r, [a, b]) == PathById(r, [a]);
    assert ms[2].toolCallId == "2" != "1";
    assert forall j :: 1 < j < |ms| ==> !IsResult(ms[j]) || ms[j].toolCallId == "2";
  }
}
