/** What a compaction reads out of the messages it elides: the latest plan, the recent
    edits, and the loaded skills, tools and instructions. */
module Extract {
  import opened Text
  import opened Transcript
  import opened Entries

  const TODO_WRITE := "todo_write"
  const TOOL_SEARCH := "tool_search"
  const SKILL := "skill"
  const WRITE_FILE := "write_file"
  const EDIT_FILE := "edit_file"
  const INSTRUCTIONS_HEADING := "# "
  const UNNAMED := "(unnamed)"

  /** The argument and body readers, taken as arbitrary functions of the text they read. */
  datatype Readers = Readers(
    plan: string -> string,
    editPath: string -> string,
    editNote: string -> string,
    skillName: string -> string,
    capBody: string -> string,
    toolEntries: string -> seq<Entry>,
    instruction: string -> Entry)

  /** Every instruction block names its source, as its heading always carries one. */
  ghost predicate SourcesNamed(r: Readers) {
    forall content :: r.instruction(content).body != "" ==> r.instruction(content).name != ""
  }

  function AllCalls(ms: seq<Message>): seq<ToolCall> {
    if ms == [] then [] else AllCalls(ms[..|ms| - 1]) + ms[|ms| - 1].toolCalls
  }

  predicate IsResult(m: Message) {
    m.role == Tool && m.toolCallId != ""
  }

  function Results(ms: seq<Message>): seq<Message> {
    if ms == [] then []
    else if IsResult(ms[|ms| - 1]) then Results(ms[..|ms| - 1]) + [ms[|ms| - 1]]
    else Results(ms[..|ms| - 1])
  }

  lemma AllCallsStep(ms: seq<Message>, i: nat)
    requires i < |ms|
    ensures AllCalls(ms[..i + 1]) == AllCalls(ms[..i]) + ms[i].toolCalls
  {
    assert ms[..i + 1][..i] == ms[..i];
  }

  lemma ResultsStep(ms: seq<Message>, i: nat)
    requires i < |ms|
    ensures Results(ms[..i + 1]) == if IsResult(ms[i]) then Results(ms[..i]) + [ms[i]] else Results(ms[..i])
  {
    assert ms[..i + 1][..i] == ms[..i];
  }

  /** Dropping what was just appended. */
  lemma Snoc<T>(s: seq<T>, x: T)
    ensures (s + [x])[..|s + [x]| - 1] == s
  {
  }

  lemma Grow<T>(s: seq<T>, t: seq<T>, j: nat)
    requires j < |t|
    ensures s + t[..j + 1] == s + t[..j] + [t[j]]
  {
  }

  /* ---- plan ---- */

  function PlanOf(r: Readers, call: ToolCall): string {
    if call.name == TODO_WRITE then r.plan(call.arguments) else ""
  }

  function LatestPlan(r: Readers, calls: seq<ToolCall>): string {
    if calls == [] then ""
    else if PlanOf(r, calls[|calls| - 1]) != "" then PlanOf(r, calls[|calls| - 1])
    else LatestPlan(r, calls[..|calls| - 1])
  }

  method LatestInCalls(r: Readers, calls: seq<ToolCall>, ghost before: seq<ToolCall>) returns (plan: string)
    ensures LatestPlan(r, before + calls) == if plan != "" then plan else LatestPlan(r, before)
  {
    hide PlanOf;
    var j := |calls|;
    assert calls[..j] == calls;
    while j > 0
      invariant 0 <= j <= |calls|
      invariant LatestPlan(r, before + calls[..j]) == LatestPlan(r, before + calls)
    {
      j := j - 1;
      Grow(before, calls, j);
      Snoc(before + calls[..j], calls[j]);
      if PlanOf(r, calls[j]) != "" {
        return PlanOf(r, calls[j]);
      }
    }
    assert before + calls[..0] == before;
    plan := "";
  }

  /** Scans newest first and stops at the first todo_write whose arguments hold a plan. */
  method ExtractLatestPlan(r: Readers, messages: seq<Message>) returns (plan: string)
    ensures plan == LatestPlan(r, AllCalls(messages))
  {
    assert LatestPlan(r, AllCalls(messages[..0])) == "";
    hide LatestPlan, AllCalls;
    var i := |messages|;
    assert messages[..i] == messages;
    while i > 0
      invariant 0 <= i <= |messages|
      invariant LatestPlan(r, AllCalls(messages[..i])) == LatestPlan(r, AllCalls(messages))
    {
      i := i - 1;
      AllCallsStep(messages, i);
      plan := LatestInCalls(r, messages[i].toolCalls, AllCalls(messages[..i]));
      if plan != "" {
        return;
      }
    }
    plan := "";
  }

  /* ---- edits ---- */

  function EditPath(r: Readers, call: ToolCall): string {
    if call.name == WRITE_FILE || call.name == EDIT_FILE then r.editPath(call.arguments) else ""
  }

  function PathSequence(r: Readers, calls: seq<ToolCall>): seq<string> {
    if calls == [] then []
    else
      var path := EditPath(r, calls[|calls| - 1]);
      PathSequence(r, calls[..|calls| - 1]) + if path != "" then [path] else []
  }

  function PathById(r: Readers, calls: seq<ToolCall>): map<string, string> {
    if calls == [] then map[]
    else
      var before := PathById(r, calls[..|calls| - 1]);
      var call := calls[|calls| - 1];
      if EditPath(r, call) != "" && call.id != "" then before[call.id := EditPath(r, call)] else before
  }

  function Notes(r: Readers, results: seq<Message>, pathById: map<string, string>): map<string, string> {
    if results == [] then map[]
    else
      var before := Notes(r, results[..|results| - 1], pathById);
      var m := results[|results| - 1];
      if m.toolCallId in pathById then before[pathById[m.toolCallId] := r.editNote(m.content)] else before
  }

  /** Every edited path once, in last-edit order, with its last note. */
  function EditEntries(r: Readers, ms: seq<Message>): seq<Entry> {
    Build(LastSeen(PathSequence(r, AllCalls(ms))), Notes(r, Results(ms), PathById(r, AllCalls(ms))))
  }

  method AddEditCalls(r: Readers, calls: seq<ToolCall>, ghost before: seq<ToolCall>,
                      known: map<string, string>, seen: seq<string>)
    returns (pathById: map<string, string>, sequence: seq<string>)
    requires known == PathById(r, before) && seen == PathSequence(r, before)
    ensures pathById == PathById(r, before + calls) && sequence == PathSequence(r, before + calls)
  {
    hide EditPath;
    pathById, sequence := known, seen;
    assert before + calls[..0] == before;
    for j := 0 to |calls|
      invariant pathById == PathById(r, before + calls[..j])
      invariant sequence == PathSequence(r, before + calls[..j])
    {
      Grow(before, calls, j);
      Snoc(before + calls[..j], calls[j]);
      var path := EditPath(r, calls[j]);
      if path != "" {
        if calls[j].id != "" {
          pathById := pathById[calls[j].id := path];
        }
        sequence := sequence + [path];
      }
    }
    assert calls[..|calls|] == calls;
  }

  method ReadEditCalls(r: Readers, messages: seq<Message>)
    returns (pathById: map<string, string>, sequence: seq<string>)
    ensures pathById == PathById(r, AllCalls(messages))
    ensures sequence == PathSequence(r, AllCalls(messages))
  {
    pathById, sequence := map[], [];
    assert AllCalls(messages[..0]) == [];
    hide AllCalls;
    for i := 0 to |messages|
      invariant pathById == PathById(r, AllCalls(messages[..i]))
      invariant sequence == PathSequence(r, AllCalls(messages[..i]))
    {
      AllCallsStep(messages, i);
      pathById, sequence := AddEditCalls(r, messages[i].toolCalls, AllCalls(messages[..i]), pathById, sequence);
    }
    assert messages[..|messages|] == messages;
  }

  method ReadNotes(r: Readers, messages: seq<Message>, pathById: map<string, string>)
    returns (noteByPath: map<string, string>)
    ensures noteByPath == Notes(r, Results(messages), pathById)
  {
    noteByPath := map[];
    assert Results(messages[..0]) == [];
    hide Results;
    for i := 0 to |messages|
      invariant noteByPath == Notes(r, Results(messages[..i]), pathById)
    {
      var message := messages[i];
      ResultsStep(messages, i);
      if message.role == Tool && message.toolCallId != "" {
        Snoc(Results(messages[..i]), message);
        if message.toolCallId in pathById {
          noteByPath := noteByPath[pathById[message.toolCallId] := r.editNote(message.content)];
        }
      }
    }
    assert messages[..|messages|] == messages;
  }

  /** A path survives only where its last occurrence is. */
  method LastSeenOrder(paths: seq<string>) returns (order: seq<string>)
    ensures order == LastSeen(paths)
  {
    var lastIdx: map<string, nat> := map[];
    for i := 0 to |paths|
      invariant forall t :: 0 <= t < i ==> paths[t] in lastIdx
      invariant forall p :: p in lastIdx ==> lastIdx[p] < i && paths[lastIdx[p]] == p
      invariant forall p, t :: p in lastIdx && lastIdx[p] < t < i ==> paths[t] != p
    {
      lastIdx := lastIdx[paths[i] := i];
    }
    order := [];
    for i := 0 to |paths|
      invariant order + LastSeen(paths[i..]) == LastSeen(paths)
    {
      var p := paths[i];
      assert paths[i..][1..] == paths[i + 1..];
      assert lastIdx[p] > i ==> paths[i + 1..][lastIdx[p] - i - 1] == p;
      if lastIdx[p] == i {
        order := order + [p];
      }
    }
  }

  /** The last twenty paths. */
  function LastPaths(order: seq<string>): seq<string> {
    if |order| > MAX_RECENT_EDITS then order[|order| - MAX_RECENT_EDITS..] else order
  }

  lemma CapBuilds(order: seq<string>, notes: map<string, string>)
    ensures CapRecentEdits(Build(order, notes)) == Build(LastPaths(order), notes)
  {
  }

  method RecentEdits(r: Readers, messages: seq<Message>) returns (entries: seq<Entry>)
    ensures entries == CapRecentEdits(EditEntries(r, messages))
  {
    hide LastSeen, PathSequence, Notes, Results, AllCalls, PathById, CapRecentEdits, Build;
    var pathById, sequence := ReadEditCalls(r, messages);
    var order := LastSeenOrder(sequence);
    CapBuilds(order, Notes(r, Results(messages), pathById));
    if |order| == 0 {
      return [];
    }
    var noteByPath := ReadNotes(r, messages, pathById);
    order := LastPaths(order);
    entries := [];
    for i := 0 to |order|
      invariant entries == Build(order, noteByPath)[..i]
    {
      entries := entries + [Entry(order[i], Get(noteByPath, order[i]))];
    }
  }

  /* ---- skills, tools, instructions ---- */

  /** First-seen names with their last bodies. */
  function FirstSeenEntries(events: seq<Entry>): seq<Entry> {
    Build(FirstSeen(Names(events)), Bodies(events))
  }

  lemma NothingSeen()
    ensures FirstSeen(Names([])) == [] && Bodies([]) == map[]
  {
  }

  /** What a loop iteration does with the names it finds: a new name joins the order, and
      a known one takes the newer body. */
  method RememberAll(order: seq<string>, bodies: map<string, string>, ghost events: seq<Entry>, found: seq<Entry>)
    returns (nameOrder: seq<string>, bodyByName: map<string, string>)
    requires order == FirstSeen(Names(events)) && bodies == Bodies(events)
    ensures nameOrder == FirstSeen(Names(events + found)) && bodyByName == Bodies(events + found)
  {
    hide FirstSeen;
    nameOrder, bodyByName := order, bodies;
    assert events + found[..0] == events;
    for k := 0 to |found|
      invariant nameOrder == FirstSeen(Names(events + found[..k]))
      invariant bodyByName == Bodies(events + found[..k])
    {
      ghost var sofar := events + found[..k];
      Grow(events, found, k);
      Snoc(sofar, found[k]);
      BodiesKeys(sofar);
      FirstSeenSnoc(Names(sofar), found[k].name);
      assert Names(sofar + [found[k]]) == Names(sofar) + [found[k].name];
      if found[k].name !in bodyByName {
        nameOrder := nameOrder + [found[k].name];
      }
      bodyByName := bodyByName[found[k].name := found[k].body];
    }
    assert found[..|found|] == found;
  }

  method Listed(order: seq<string>, bodies: map<string, string>) returns (entries: seq<Entry>)
    ensures entries == Build(order, bodies)
  {
    entries := [];
    for i := 0 to |order|
      invariant entries == Build(order, bodies)[..i]
    {
      entries := entries + [Entry(order[i], Get(bodies, order[i]))];
    }
  }

  function SkillById(r: Readers, calls: seq<ToolCall>): map<string, string> {
    if calls == [] then map[]
    else
      var before := SkillById(r, calls[..|calls| - 1]);
      var call := calls[|calls| - 1];
      if call.name == SKILL && call.id != "" then before[call.id := r.skillName(call.arguments)] else before
  }

  function SkillEvent(r: Readers, m: Message, skillById: map<string, string>): seq<Entry> {
    if m.toolCallId in skillById && TrimSpace(m.content) != "" then
      var name := skillById[m.toolCallId];
      [Entry(if name == "" then UNNAMED else name, r.capBody(TrimSpace(m.content)))]
    else []
  }

  function SkillEvents(r: Readers, results: seq<Message>, skillById: map<string, string>): seq<Entry> {
    if results == [] then []
    else SkillEvents(r, results[..|results| - 1], skillById) + SkillEvent(r, results[|results| - 1], skillById)
  }

  function Skills(r: Readers, ms: seq<Message>): seq<Entry> {
    FirstSeenEntries(SkillEvents(r, Results(ms), SkillById(r, AllCalls(ms))))
  }

  /** What one message adds to the skills listed so far. */
  lemma SkillEventsStep(r: Readers, ms: seq<Message>, i: nat, skillById: map<string, string>)
    requires i < |ms|
    ensures SkillEvents(r, Results(ms[..i + 1]), skillById) ==
      if IsResult(ms[i]) then SkillEvents(r, Results(ms[..i]), skillById) + SkillEvent(r, ms[i], skillById)
      else SkillEvents(r, Results(ms[..i]), skillById)
  {
    hide Results, SkillEvent;
    ResultsStep(ms, i);
    Snoc(Results(ms[..i]), ms[i]);
  }

  lemma NoSkillEvents(r: Readers, ms: seq<Message>, skillById: map<string, string>)
    ensures SkillEvents(r, Results(ms[..0]), skillById) == []
  {
  }

  method LoadedSkills(r: Readers, messages: seq<Message>) returns (entries: seq<Entry>)
    ensures entries == Skills(r, messages)
  {
    hide Results, FirstSeen, Bodies, SkillEvents, SkillEvent, SkillById, AllCalls;
    var nameById := ReadSkillCalls(r, messages);
    var bodyByName: map<string, string>, nameOrder: seq<string> := map[], [];
    NothingSeen();
    NoSkillEvents(r, messages, nameById);
    for i := 0 to |messages|
      invariant nameOrder == FirstSeen(Names(SkillEvents(r, Results(messages[..i]), nameById)))
      invariant bodyByName == Bodies(SkillEvents(r, Results(messages[..i]), nameById))
    {
      var message := messages[i];
      SkillEventsStep(r, messages, i, nameById);
      if message.role == Tool && message.toolCallId != "" {
        ghost var events := SkillEvents(r, Results(messages[..i]), nameById);
        nameOrder, bodyByName := RememberAll(nameOrder, bodyByName, events, SkillEvent(r, message, nameById));
      }
    }
    assert messages[..|messages|] == messages;
    entries := Listed(nameOrder, bodyByName);
  }

  method AddSkillCalls(r: Readers, calls: seq<ToolCall>, ghost before: seq<ToolCall>, known: map<string, string>)
    returns (nameById: map<string, string>)
    requires known == SkillById(r, before)
    ensures nameById == SkillById(r, before + calls)
  {
    nameById := known;
    assert before + calls[..0] == before;
    for j := 0 to |calls|
      invariant nameById == SkillById(r, before + calls[..j])
    {
      Grow(before, calls, j);
      Snoc(before + calls[..j], calls[j]);
      if calls[j].name == SKILL && calls[j].id != "" {
        nameById := nameById[calls[j].id := r.skillName(calls[j].arguments)];
      }
    }
    assert calls[..|calls|] == calls;
  }

  method ReadSkillCalls(r: Readers, messages: seq<Message>) returns (nameById: map<string, string>)
    ensures nameById == SkillById(r, AllCalls(messages))
  {
    nameById := map[];
    assert AllCalls(messages[..0]) == [];
    hide AllCalls;
    for i := 0 to |messages|
      invariant nameById == SkillById(r, AllCalls(messages[..i]))
    {
      AllCallsStep(messages, i);
      nameById := AddSkillCalls(r, messages[i].toolCalls, AllCalls(messages[..i]), nameById);
    }
    assert messages[..|messages|] == messages;
  }

  function SearchIds(calls: seq<ToolCall>): set<string> {
    if calls == [] then {}
    else
      var call := calls[|calls| - 1];
      SearchIds(calls[..|calls| - 1]) + if call.name == TOOL_SEARCH && call.id != "" then {call.id} else {}
  }

  /** The named schemas one loaded-tools result lists. */
  function ToolEvent(r: Readers, m: Message, ids: set<string>): seq<Entry> {
    if m.toolCallId in ids then FilterEntries(r.toolEntries(m.content), {""}) else []
  }

  function ToolEvents(r: Readers, results: seq<Message>, ids: set<string>): seq<Entry> {
    if results == [] then []
    else ToolEvents(r, results[..|results| - 1], ids) + ToolEvent(r, results[|results| - 1], ids)
  }

  function ToolSchemas(r: Readers, ms: seq<Message>): seq<Entry> {
    FirstSeenEntries(ToolEvents(r, Results(ms), SearchIds(AllCalls(ms))))
  }

  method AddSearchCalls(calls: seq<ToolCall>, ghost before: seq<ToolCall>, known: set<string>) returns (ids: set<string>)
    requires known == SearchIds(before)
    ensures ids == SearchIds(before + calls)
  {
    ids := known;
    assert before + calls[..0] == before;
    for j := 0 to |calls|
      invariant ids == SearchIds(before + calls[..j])
    {
      Grow(before, calls, j);
      Snoc(before + calls[..j], calls[j]);
      if calls[j].name == TOOL_SEARCH && calls[j].id != "" {
        ids := ids + {calls[j].id};
      }
    }
    assert calls[..|calls|] == calls;
  }

  method ReadSearchCalls(messages: seq<Message>) returns (ids: set<string>)
    ensures ids == SearchIds(AllCalls(messages))
  {
    ids := {};
    assert AllCalls(messages[..0]) == [];
    hide AllCalls;
    for i := 0 to |messages|
      invariant ids == SearchIds(AllCalls(messages[..i]))
    {
      AllCallsStep(messages, i);
      ids := AddSearchCalls(messages[i].toolCalls, AllCalls(messages[..i]), ids);
    }
    assert messages[..|messages|] == messages;
  }

  /** What one message adds to the schemas listed so far. */
  lemma ToolEventsStep(r: Readers, ms: seq<Message>, i: nat, ids: set<string>)
    requires i < |ms|
    ensures ToolEvents(r, Results(ms[..i + 1]), ids) ==
      if IsResult(ms[i]) then ToolEvents(r, Results(ms[..i]), ids) + ToolEvent(r, ms[i], ids)
      else ToolEvents(r, Results(ms[..i]), ids)
  {
    hide Results, ToolEvent;
    ResultsStep(ms, i);
    Snoc(Results(ms[..i]), ms[i]);
  }

  lemma NoToolEvents(r: Readers, ms: seq<Message>, ids: set<string>)
    ensures ToolEvents(r, Results(ms[..0]), ids) == []
  {
  }

  /** One loaded-tools result: its schemas join the listing. */
  method RememberTools(r: Readers, message: Message, ids: set<string>, order: seq<string>, bodies: map<string, string>,
                       ghost events: seq<Entry>)
    returns (nameOrder: seq<string>, bodyByName: map<string, string>)
    requires order == FirstSeen(Names(events)) && bodies == Bodies(events) && "" !in ids
    ensures var all := if IsResult(message) then events + ToolEvent(r, message, ids) else events;
      nameOrder == FirstSeen(Names(all)) && bodyByName == Bodies(all)
  {
    hide FirstSeen, Bodies, FilterEntries;
    nameOrder, bodyByName := order, bodies;
    if message.role == Tool && message.toolCallId in ids {
      var found := ToolEvent(r, message, ids);
      nameOrder, bodyByName := RememberAll(order, bodies, events, found);
    } else {
      assert events + [] == events;
    }
  }

  method LoadedToolSchemas(r: Readers, messages: seq<Message>) returns (entries: seq<Entry>)
    ensures entries == ToolSchemas(r, messages)
  {
    hide Results, FirstSeen, Bodies, ToolEvents, ToolEvent, SearchIds, AllCalls, IsResult;
    var ids := ReadSearchCalls(messages);
    SearchIdsNonEmpty(AllCalls(messages));
    var bodyByName: map<string, string>, nameOrder: seq<string> := map[], [];
    NothingSeen();
    NoToolEvents(r, messages, ids);
    for i := 0 to |messages|
      invariant nameOrder == FirstSeen(Names(ToolEvents(r, Results(messages[..i]), ids)))
      invariant bodyByName == Bodies(ToolEvents(r, Results(messages[..i]), ids))
    {
      ToolEventsStep(r, messages, i, ids);
      nameOrder, bodyByName :=
        RememberTools(r, messages[i], ids, nameOrder, bodyByName, ToolEvents(r, Results(messages[..i]), ids));
    }
    assert messages[..|messages|] == messages;
    entries := Listed(nameOrder, bodyByName);
  }

  lemma {:induction false} SearchIdsNonEmpty(calls: seq<ToolCall>)
    ensures "" !in SearchIds(calls)
  {
    if calls != [] {
      SearchIdsNonEmpty(calls[..|calls| - 1]);
    }
  }

  function InstructionEvent(r: Readers, m: Message): seq<Entry> {
    if m.role == User && HasPrefix(TrimSpace(m.content), INSTRUCTIONS_HEADING)
       && r.instruction(m.content).body != ""
    then [r.instruction(m.content)] else []
  }

  function InstructionEvents(r: Readers, ms: seq<Message>): seq<Entry> {
    if ms == [] then [] else InstructionEvents(r, ms[..|ms| - 1]) + InstructionEvent(r, ms[|ms| - 1])
  }

  function Instructions(r: Readers, ms: seq<Message>): seq<Entry> {
    FirstSeenEntries(InstructionEvents(r, ms))
  }

  method ProjectInstructionEntries(r: Readers, messages: seq<Message>) returns (entries: seq<Entry>)
    ensures entries == Instructions(r, messages)
  {
    var bodyBySource: map<string, string>, sourceOrder: seq<string> := map[], [];
    hide FirstSeen, Bodies, InstructionEvent;
    NothingSeen();
    for i := 0 to |messages|
      invariant sourceOrder == FirstSeen(Names(InstructionEvents(r, messages[..i])))
      invariant bodyBySource == Bodies(InstructionEvents(r, messages[..i]))
    {
      assert messages[..i + 1][..i] == messages[..i];
      var event := InstructionEvent(r, messages[i]);
      sourceOrder, bodyBySource := RememberAll(sourceOrder, bodyBySource, InstructionEvents(r, messages[..i]), event);
    }
    assert messages[..|messages|] == messages;
    entries := Listed(sourceOrder, bodyBySource);
  }
}
