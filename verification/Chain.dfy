/** A chain of compactions carries exactly what one scan of everything elided would give. */
module Chain {
  import opened Text
  import opened Transcript
  import opened Entries
  import opened Extract
  import opened Listing
  import opened Tail
  import opened Preserve
  import opened Compaction

  /* ---- joining two slices ---- */

  lemma {:induction false} AllCallsConcat(a: seq<Message>, b: seq<Message>)
    ensures AllCalls(a + b) == AllCalls(a) + AllCalls(b)
  {
    if b == [] {
      assert a + b == a;
    } else {
      assert (a + b)[..|a + b| - 1] == a + b[..|b| - 1];
      AllCallsConcat(a, b[..|b| - 1]);
    }
  }

  lemma {:induction false} ResultsConcat(a: seq<Message>, b: seq<Message>)
    ensures Results(a + b) == Results(a) + Results(b)
  {
    if b == [] {
      assert a + b == a;
    } else {
      assert (a + b)[..|a + b| - 1] == a + b[..|b| - 1];
      ResultsConcat(a, b[..|b| - 1]);
    }
  }

  lemma {:induction false} LatestPlanConcat(r: Readers, x: seq<ToolCall>, y: seq<ToolCall>)
    ensures LatestPlan(r, x + y) == if LatestPlan(r, y) != "" then LatestPlan(r, y) else LatestPlan(r, x)
  {
    hide PlanOf;
    if y == [] {
      assert x + y == x;
    } else {
      assert (x + y)[..|x + y| - 1] == x + y[..|y| - 1];
      LatestPlanConcat(r, x, y[..|y| - 1]);
    }
  }

  lemma {:induction false} PathByIdConcat(r: Readers, x: seq<ToolCall>, y: seq<ToolCall>)
    ensures PathById(r, x + y) == PathById(r, x) + PathById(r, y)
  {
    hide EditPath;
    if y == [] {
      assert x + y == x;
    } else {
      assert (x + y)[..|x + y| - 1] == x + y[..|y| - 1];
      PathByIdConcat(r, x, y[..|y| - 1]);
    }
  }

  lemma {:induction false} SkillByIdConcat(r: Readers, x: seq<ToolCall>, y: seq<ToolCall>)
    ensures SkillById(r, x + y) == SkillById(r, x) + SkillById(r, y)
  {
    if y == [] {
      assert x + y == x;
    } else {
      assert (x + y)[..|x + y| - 1] == x + y[..|y| - 1];
      SkillByIdConcat(r, x, y[..|y| - 1]);
    }
  }

  lemma {:induction false} SearchIdsConcat(x: seq<ToolCall>, y: seq<ToolCall>)
    ensures SearchIds(x + y) == SearchIds(x) + SearchIds(y)
  {
    if y == [] {
      assert x + y == x;
    } else {
      assert (x + y)[..|x + y| - 1] == x + y[..|y| - 1];
      SearchIdsConcat(x, y[..|y| - 1]);
    }
  }

  lemma {:induction false} NotesConcat(r: Readers, x: seq<Message>, y: seq<Message>, m: map<string, string>)
    ensures Notes(r, x + y, m) == Notes(r, x, m) + Notes(r, y, m)
  {
    if y == [] {
      assert x + y == x;
    } else {
      assert (x + y)[..|x + y| - 1] == x + y[..|y| - 1];
      NotesConcat(r, x, y[..|y| - 1], m);
    }
  }

  lemma {:induction false} SkillEventsConcat(r: Readers, x: seq<Message>, y: seq<Message>, m: map<string, string>)
    ensures SkillEvents(r, x + y, m) == SkillEvents(r, x, m) + SkillEvents(r, y, m)
  {
    hide SkillEvent;
    if y == [] {
      assert x + y == x;
    } else {
      assert (x + y)[..|x + y| - 1] == x + y[..|y| - 1];
      SkillEventsConcat(r, x, y[..|y| - 1], m);
    }
  }

  lemma {:induction false} ToolEventsConcat(r: Readers, x: seq<Message>, y: seq<Message>, ids: set<string>)
    ensures ToolEvents(r, x + y, ids) == ToolEvents(r, x, ids) + ToolEvents(r, y, ids)
  {
    hide ToolEvent;
    if y == [] {
      assert x + y == x;
    } else {
      assert (x + y)[..|x + y| - 1] == x + y[..|y| - 1];
      ToolEventsConcat(r, x, y[..|y| - 1], ids);
    }
  }

  lemma {:induction false} InstructionEventsConcat(r: Readers, a: seq<Message>, b: seq<Message>)
    ensures InstructionEvents(r, a + b) == InstructionEvents(r, a) + InstructionEvents(r, b)
  {
    hide InstructionEvent;
    if b == [] {
      assert a + b == a;
    } else {
      assert (a + b)[..|a + b| - 1] == a + b[..|b| - 1];
      InstructionEventsConcat(r, a, b[..|b| - 1]);
    }
  }

  /** First-seen listings merge into the listing of the joined events. */
  lemma FirstSeenEntriesConcat(a: seq<Entry>, b: seq<Entry>)
    ensures FirstSeenEntries(a + b) == MergeEntries(FirstSeenEntries(a), FirstSeenEntries(b))
  {
    hide FirstSeen, FilterOut, MergeEntries, Build, Bodies;
    assert Names(a + b) == Names(a) + Names(b);
    FirstSeenConcat(Names(a), Names(b));
    FirstSeenMembers(Names(a));
    FirstSeenMembers(Names(b));
    BodiesKeys(b);
    BodiesConcat(a, b);
    assert NameSet(FirstSeen(Names(a))) == NameSet(Names(a));
    MergeEntriesOfBuilds(FirstSeen(Names(a)), Bodies(a), FirstSeen(Names(b)), Bodies(b));
  }

  /* ---- whose results a slice reads ---- */

  predicate UniqueIds(calls: seq<ToolCall>) {
    "" !in CallIds(calls) && Distinct(CallIds(calls))
  }

  predicate HasId(calls: seq<ToolCall>, id: string) {
    id in CallIds(calls)
  }

  ghost predicate Answers(results: seq<Message>, id: string) {
    exists k :: 0 <= k < |results| && results[k].toolCallId == id
  }

  /** Every call of the slice is answered in the slice, and nothing else is. */
  ghost predicate SelfContained(ms: seq<Message>) {
    forall id :: HasId(AllCalls(ms), id) <==> Answers(Results(ms), id)
  }

  lemma HasIdConcat(x: seq<ToolCall>, y: seq<ToolCall>, id: string)
    ensures HasId(x + y, id) <==> HasId(x, id) || HasId(y, id)
  {
    assert CallIds(x + y) == CallIds(x) + CallIds(y);
  }

  lemma UniqueConcat(x: seq<ToolCall>, y: seq<ToolCall>)
    requires UniqueIds(x + y)
    ensures UniqueIds(x) && UniqueIds(y)
    ensures forall id :: HasId(x, id) ==> !HasId(y, id)
  {
    var all := CallIds(x + y);
    assert all == CallIds(x) + CallIds(y);
    assert forall k :: 0 <= k < |x| ==> all[k] == CallIds(x)[k];
    assert forall k :: 0 <= k < |y| ==> all[|x| + k] == CallIds(y)[k];
  }

  lemma {:induction false} PathByIdKeys(r: Readers, calls: seq<ToolCall>)
    ensures forall id :: id in PathById(r, calls) ==> HasId(calls, id) && PathById(r, calls)[id] in PathSequence(r, calls)
  {
    hide EditPath;
    if calls != [] {
      var n := |calls| - 1;
      assert CallIds(calls) == CallIds(calls[..n]) + [calls[n].id];
      PathByIdKeys(r, calls[..n]);
    }
  }

  /** With unique ids every edited path is found under the id of some call. */
  lemma {:induction false} PathHasId(r: Readers, calls: seq<ToolCall>, p: string) returns (id: string)
    requires UniqueIds(calls) && p in PathSequence(r, calls)
    ensures id in PathById(r, calls) && PathById(r, calls)[id] == p
  {
    hide EditPath;
    var n := |calls| - 1;
    assert CallIds(calls) == CallIds(calls[..n]) + [calls[n].id];
    assert CallIds(calls)[n] == calls[n].id;
    UniqueInit(calls);
    if p in PathSequence(r, calls[..n]) {
      id := PathHasId(r, calls[..n], p);
      PathByIdKeys(r, calls[..n]);
    } else {
      id := calls[n].id;
    }
  }

  lemma UniqueInit(calls: seq<ToolCall>)
    requires UniqueIds(calls) && calls != []
    ensures UniqueIds(calls[..|calls| - 1]) && calls[|calls| - 1].id != ""
    ensures !HasId(calls[..|calls| - 1], calls[|calls| - 1].id)
  {
    var n := |calls| - 1;
    assert calls == calls[..n] + [calls[n]];
    UniqueConcat(calls[..n], [calls[n]]);
    assert CallIds(calls)[n] == calls[n].id;
    assert CallIds([calls[n]])[0] == calls[n].id;
  }

  lemma {:induction false} SkillByIdKeys(r: Readers, calls: seq<ToolCall>)
    ensures forall id :: id in SkillById(r, calls) ==> HasId(calls, id)
  {
    if calls != [] {
      var n := |calls| - 1;
      assert CallIds(calls) == CallIds(calls[..n]) + [calls[n].id];
      SkillByIdKeys(r, calls[..n]);
    }
  }

  lemma {:induction false} SearchIdsKeys(calls: seq<ToolCall>)
    ensures forall id :: id in SearchIds(calls) ==> HasId(calls, id)
  {
    if calls != [] {
      var n := |calls| - 1;
      assert CallIds(calls) == CallIds(calls[..n]) + [calls[n].id];
      SearchIdsKeys(calls[..n]);
    }
  }

  /* ---- a reader only sees the ids its results carry ---- */

  predicate AgreeOn(results: seq<Message>, m: map<string, string>, m': map<string, string>) {
    forall k :: 0 <= k < |results| ==>
      var id := results[k].toolCallId;
      (id in m <==> id in m') && (id in m ==> m[id] == m'[id])
  }

  lemma {:induction false} NotesSame(r: Readers, results: seq<Message>, m: map<string, string>, m': map<string, string>)
    requires AgreeOn(results, m, m')
    ensures Notes(r, results, m) == Notes(r, results, m')
  {
    if results != [] {
      NotesSame(r, results[..|results| - 1], m, m');
    }
  }

  lemma {:induction false} SkillEventsSame(r: Readers, results: seq<Message>, m: map<string, string>, m': map<string, string>)
    requires AgreeOn(results, m, m')
    ensures SkillEvents(r, results, m) == SkillEvents(r, results, m')
  {
    if results != [] {
      SkillEventsSame(r, results[..|results| - 1], m, m');
    }
  }

  lemma {:induction false} ToolEventsSame(r: Readers, results: seq<Message>, ids: set<string>, ids': set<string>)
    requires forall k :: 0 <= k < |results| ==> (results[k].toolCallId in ids <==> results[k].toolCallId in ids')
    ensures ToolEvents(r, results, ids) == ToolEvents(r, results, ids')
  {
    if results != [] {
      ToolEventsSame(r, results[..|results| - 1], ids, ids');
    }
  }

  lemma {:induction false} NotesKeys(r: Readers, results: seq<Message>, m: map<string, string>)
    ensures forall p :: p in Notes(r, results, m) ==> exists id :: id in m && m[id] == p
    ensures forall id :: id in m && Answers(results, id) ==> m[id] in Notes(r, results, m)
  {
    if results != [] {
      var n := |results| - 1;
      NotesKeys(r, results[..n], m);
      forall id | id in m && Answers(results, id) ensures m[id] in Notes(r, results, m) {
        var k :| 0 <= k < |results| && results[k].toolCallId == id;
        if k < n {
          assert results[..n][k].toolCallId == id;
        }
      }
    }
  }

  /** Both slices answer their own calls, and no id is used twice. */
  ghost predicate Separate(a: seq<Message>, b: seq<Message>) {
    SelfContained(a) && SelfContained(b) && UniqueIds(AllCalls(a) + AllCalls(b))
  }

  /** Reading one slice's results through the joined ids changes nothing. */
  lemma JoinedIdsAgree(a: seq<Message>, b: seq<Message>, ma: map<string, string>, mb: map<string, string>)
    requires Separate(a, b)
    requires forall id :: id in ma ==> HasId(AllCalls(a), id)
    requires forall id :: id in mb ==> HasId(AllCalls(b), id)
    ensures AgreeOn(Results(a), ma + mb, ma) && AgreeOn(Results(b), ma + mb, mb)
  {
    UniqueConcat(AllCalls(a), AllCalls(b));
    var ra, rb := Results(a), Results(b);
    forall k | 0 <= k < |ra| ensures !HasId(AllCalls(b), ra[k].toolCallId) {
      assert Answers(ra, ra[k].toolCallId);
    }
    forall k | 0 <= k < |rb| ensures !HasId(AllCalls(a), rb[k].toolCallId) {
      assert Answers(rb, rb[k].toolCallId);
    }
  }

  lemma EditEntriesConcat(r: Readers, a: seq<Message>, b: seq<Message>)
    requires Separate(a, b)
    ensures EditEntries(r, a + b) == MergeEdits(EditEntries(r, a), EditEntries(r, b))
  {
    hide AllCalls, Results, PathSequence, PathById, Notes, LastSeen, FilterOut, MergeEdits, Build, SelfContained;
    var ca, cb := AllCalls(a), AllCalls(b);
    var pa, pb := PathById(r, ca), PathById(r, cb);
    var oa, ob := PathSequence(r, ca), PathSequence(r, cb);
    AllCallsConcat(a, b);
    ResultsConcat(a, b);
    PathByIdConcat(r, ca, cb);
    PathSequenceConcat(r, ca, cb);
    PathByIdKeys(r, ca);
    PathByIdKeys(r, cb);
    JoinedIdsAgree(a, b, pa, pb);
    NotesConcat(r, Results(a), Results(b), pa + pb);
    NotesSame(r, Results(a), pa + pb, pa);
    NotesSame(r, Results(b), pa + pb, pb);
    LastSeenConcat(oa, ob);
    LastSeenMembers(oa);
    LastSeenMembers(ob);
    assert NameSet(LastSeen(ob)) == NameSet(ob);
    NotesCoverEdits(r, a, b);
    MergeEditsOfBuilds(LastSeen(oa), Notes(r, Results(a), pa), LastSeen(ob), Notes(r, Results(b), pb));
  }

  /** In a self-contained slice exactly the edited paths have notes. */
  lemma NotesCoverEdits(r: Readers, a: seq<Message>, b: seq<Message>)
    requires Separate(a, b)
    ensures forall p :: p in Notes(r, Results(b), PathById(r, AllCalls(b))) <==> p in PathSequence(r, AllCalls(b))
  {
    hide AllCalls, Results, PathSequence, PathById, Notes;
    var calls := AllCalls(b);
    UniqueConcat(AllCalls(a), calls);
    PathByIdKeys(r, calls);
    NotesKeys(r, Results(b), PathById(r, calls));
    forall p | p in PathSequence(r, calls) ensures p in Notes(r, Results(b), PathById(r, calls)) {
      var id := PathHasId(r, calls, p);
      assert HasId(calls, id);
    }
  }

  lemma SkillsConcat(r: Readers, a: seq<Message>, b: seq<Message>)
    requires Separate(a, b)
    ensures Skills(r, a + b) == MergeEntries(Skills(r, a), Skills(r, b))
  {
    hide AllCalls, Results, SkillById, SkillEvents, MergeEntries, FirstSeenEntries, SelfContained;
    var sa, sb := SkillById(r, AllCalls(a)), SkillById(r, AllCalls(b));
    AllCallsConcat(a, b);
    ResultsConcat(a, b);
    SkillByIdConcat(r, AllCalls(a), AllCalls(b));
    SkillByIdKeys(r, AllCalls(a));
    SkillByIdKeys(r, AllCalls(b));
    JoinedIdsAgree(a, b, sa, sb);
    SkillEventsConcat(r, Results(a), Results(b), sa + sb);
    SkillEventsSame(r, Results(a), sa + sb, sa);
    SkillEventsSame(r, Results(b), sa + sb, sb);
    FirstSeenEntriesConcat(SkillEvents(r, Results(a), sa), SkillEvents(r, Results(b), sb));
  }

  lemma ToolSchemasConcat(r: Readers, a: seq<Message>, b: seq<Message>)
    requires Separate(a, b)
    ensures ToolSchemas(r, a + b) == MergeEntries(ToolSchemas(r, a), ToolSchemas(r, b))
  {
    hide AllCalls, Results, SearchIds, ToolEvents, MergeEntries, FirstSeenEntries;
    var ia, ib := SearchIds(AllCalls(a)), SearchIds(AllCalls(b));
    AllCallsConcat(a, b);
    ResultsConcat(a, b);
    SearchIdsConcat(AllCalls(a), AllCalls(b));
    SearchIdsKeys(AllCalls(a));
    SearchIdsKeys(AllCalls(b));
    UniqueConcat(AllCalls(a), AllCalls(b));
    ToolEventsConcat(r, Results(a), Results(b), ia + ib);
    var ra, rb := Results(a), Results(b);
    forall k | 0 <= k < |ra| ensures !HasId(AllCalls(b), ra[k].toolCallId) {
      assert Answers(ra, ra[k].toolCallId);
    }
    forall k | 0 <= k < |rb| ensures !HasId(AllCalls(a), rb[k].toolCallId) {
      assert Answers(rb, rb[k].toolCallId);
    }
    ToolEventsSame(r, ra, ia + ib, ia);
    ToolEventsSame(r, rb, ia + ib, ib);
    FirstSeenEntriesConcat(ToolEvents(r, ra, ia), ToolEvents(r, rb, ib));
  }

  lemma InstructionsConcat(r: Readers, a: seq<Message>, b: seq<Message>)
    ensures Instructions(r, a + b) == MergeEntries(Instructions(r, a), Instructions(r, b))
  {
    hide InstructionEvents, MergeEntries, FirstSeenEntries;
    InstructionEventsConcat(r, a, b);
    FirstSeenEntriesConcat(InstructionEvents(r, a), InstructionEvents(r, b));
  }

  /* ---- two compactions compose ---- */

  /** What one scan of `ms` extracts. */
  function StateOf(r: Readers, ms: seq<Message>, task: Option<Task>): State {
    NextState(r, EMPTY, ms, task)
  }

  lemma NamedKeeps(es: seq<Entry>)
    requires "" !in Names(es)
    ensures Named(es) == es
  {
    assert forall k :: 0 <= k < |es| ==> Names(es)[k] in Names(es);
    FilterEntriesSame(es, {""}, {});
    FilterEntriesNothing(es);
  }

  lemma {:induction false} PathsNonEmpty(r: Readers, calls: seq<ToolCall>)
    ensures "" !in PathSequence(r, calls)
  {
    if calls != [] {
      PathsNonEmpty(r, calls[..|calls| - 1]);
    }
  }

  lemma EditNames(r: Readers, ms: seq<Message>)
    ensures Distinct(Names(EditEntries(r, ms)))
    ensures "" !in Names(EditEntries(r, ms)) && "" !in Names(CapRecentEdits(EditEntries(r, ms)))
  {
    hide PathSequence, LastSeen, Notes, PathById, AllCalls, Results;
    var paths := PathSequence(r, AllCalls(ms));
    PathsNonEmpty(r, AllCalls(ms));
    LastSeenMembers(paths);
    assert Names(EditEntries(r, ms)) == LastSeen(paths);
    var capped := CapRecentEdits(EditEntries(r, ms));
    assert Names(capped) == LastSeen(paths)[|LastSeen(paths)| - |capped|..];
  }

  lemma {:induction false} SkillEventNames(r: Readers, results: seq<Message>, m: map<string, string>)
    ensures "" !in Names(SkillEvents(r, results, m))
  {
    if results != [] {
      var n := |results| - 1;
      SkillEventNames(r, results[..n], m);
      var before, event := SkillEvents(r, results[..n], m), SkillEvent(r, results[n], m);
      assert Names(before + event) == Names(before) + Names(event);
    }
  }

  lemma {:induction false} FilteredNames(es: seq<Entry>)
    ensures "" !in Names(FilterEntries(es, {""}))
  {
    if es != [] {
      FilteredNames(es[..|es| - 1]);
    }
  }

  lemma {:induction false} ToolEventNames(r: Readers, results: seq<Message>, ids: set<string>)
    ensures "" !in Names(ToolEvents(r, results, ids))
  {
    if results != [] {
      var n := |results| - 1;
      ToolEventNames(r, results[..n], ids);
      var before, event := ToolEvents(r, results[..n], ids), ToolEvent(r, results[n], ids);
      FilteredNames(r.toolEntries(results[n].content));
      assert Names(before + event) == Names(before) + Names(event);
    }
  }

  lemma {:induction false} InstructionEventNames(r: Readers, ms: seq<Message>)
    requires SourcesNamed(r)
    ensures "" !in Names(InstructionEvents(r, ms))
  {
    if ms != [] {
      var n := |ms| - 1;
      InstructionEventNames(r, ms[..n]);
      var before, event := InstructionEvents(r, ms[..n]), InstructionEvent(r, ms[n]);
      assert Names(before + event) == Names(before) + Names(event);
    }
  }

  lemma ListedNames(events: seq<Entry>)
    requires "" !in Names(events)
    ensures "" !in Names(FirstSeenEntries(events))
  {
    hide FirstSeen, Bodies;
    FirstSeenMembers(Names(events));
    assert Names(FirstSeenEntries(events)) == FirstSeen(Names(events));
  }

  lemma AllNamed(r: Readers, ms: seq<Message>)
    requires SourcesNamed(r)
    ensures Named(ToolSchemas(r, ms)) == ToolSchemas(r, ms)
    ensures Named(Skills(r, ms)) == Skills(r, ms)
    ensures Named(Instructions(r, ms)) == Instructions(r, ms)
    ensures Named(CapRecentEdits(EditEntries(r, ms))) == CapRecentEdits(EditEntries(r, ms))
  {
    hide Named, FirstSeenEntries, ToolEvents, SkillEvents, InstructionEvents, EditEntries, SearchIds, SkillById,
      AllCalls, Results;
    ToolEventNames(r, Results(ms), SearchIds(AllCalls(ms)));
    SkillEventNames(r, Results(ms), SkillById(r, AllCalls(ms)));
    InstructionEventNames(r, ms);
    ListedNames(ToolEvents(r, Results(ms), SearchIds(AllCalls(ms))));
    ListedNames(SkillEvents(r, Results(ms), SkillById(r, AllCalls(ms))));
    ListedNames(InstructionEvents(r, ms));
    EditNames(r, ms);
    NamedKeeps(ToolSchemas(r, ms));
    NamedKeeps(Skills(r, ms));
    NamedKeeps(Instructions(r, ms));
    NamedKeeps(CapRecentEdits(EditEntries(r, ms)));
  }

  lemma MergeOntoNothing(newer: seq<Entry>)
    ensures MergeEntries([], newer) == newer
    ensures Distinct(Names(newer)) ==> MergeEdits([], newer) == newer
  {
    hide MergeEdits, Bodies;
    assert NameSet(Names([])) == {};
    FilterEntriesNothing(newer);
    if Distinct(Names(newer)) {
      MergeDistinct([], newer);
    }
  }

  /** One scan extracts the plan, the capped edits, and the three listings. */
  lemma StateOfIs(r: Readers, ms: seq<Message>, task: Option<Task>)
    ensures StateOf(r, ms, task) == State(LatestPlan(r, AllCalls(ms)), task,
      CapRecentEdits(EditEntries(r, ms)), ToolSchemas(r, ms), Skills(r, ms), Instructions(r, ms))
  {
    hide MergeEntries, MergeEdits, LatestPlan, AllCalls, ToolSchemas, Skills, Instructions, EditEntries;
    MergeOntoNothing(ToolSchemas(r, ms));
    MergeOntoNothing(Skills(r, ms));
    MergeOntoNothing(Instructions(r, ms));
    EditNames(r, ms);
    var edits := EditEntries(r, ms);
    assert Names(CapRecentEdits(edits)) == Names(edits)[|edits| - |CapRecentEdits(edits)|..];
    MergeOntoNothing(CapRecentEdits(edits));
    assert Named([]) == [];
  }

  /** One scan holds what the messages hold, and nothing else. */
  lemma StateOfCarries(r: Readers, ms: seq<Message>, task: Option<Task>)
    ensures CarriesOn(r, EMPTY, ms, task, StateOf(r, ms, task))
  {
    hide CarriesOn, NextState;
    NextStateCarries(r, EMPTY, ms, task);
  }

  /** Carrying the state of `a` into the compaction of `b` is scanning both at once, even
      though each step keeps only twenty edits. */
  lemma NextStateComposes(r: Readers, a: seq<Message>, b: seq<Message>, ta: Option<Task>, tb: Option<Task>)
    requires Separate(a, b) && SourcesNamed(r)
    ensures NextState(r, StateOf(r, a, ta), b, tb) == StateOf(r, a + b, if tb.Some? then tb else ta)
  {
    hide MergeEntries, MergeEdits, LatestPlan, AllCalls, ToolSchemas, Skills, Instructions, EditEntries, Named,
      CapRecentEdits, Separate, StateOf, SourcesNamed;
    StateOfIs(r, a, ta);
    StateOfIs(r, a + b, if tb.Some? then tb else ta);
    AllNamed(r, a);
    AllCallsConcat(a, b);
    LatestPlanConcat(r, AllCalls(a), AllCalls(b));
    EditEntriesConcat(r, a, b);
    EditNames(r, a);
    EditNames(r, b);
    CapSurvivesMerge(EditEntries(r, a), EditEntries(r, b));
    ToolSchemasConcat(r, a, b);
    SkillsConcat(r, a, b);
    InstructionsConcat(r, a, b);
  }

  /* ---- any number of compactions ---- */

  /** One compaction: its prose, the messages it elides, and the running task it records. */
  datatype Round = Round(prose: string, slice: seq<Message>, task: Option<Task>)

  function Elided(rounds: seq<Round>): seq<Message> {
    if rounds == [] then [] else Elided(rounds[..|rounds| - 1]) + rounds[|rounds| - 1].slice
  }

  function LastTask(rounds: seq<Round>): Option<Task> {
    if rounds == [] then None
    else if rounds[|rounds| - 1].task.Some? then rounds[|rounds| - 1].task
    else LastTask(rounds[..|rounds| - 1])
  }

  /** What a compaction summarizes: the previous summary message, then its own slice. */
  function Middle(c: Codec, r: Readers, before: seq<Round>, slice: seq<Message>): seq<Message>
    decreases |before|, 2
  {
    if before == [] then slice else [UserText(Carried(c, r, before))] + slice
  }

  /** The state a round writes: the one read back from the previous summary, overlaid. */
  function RoundState(c: Codec, r: Readers, before: seq<Round>, last: Round): State
    decreases |before|, 3
  {
    var middle := Middle(c, r, before, last.slice);
    NextState(r, ParseBlock(c, LatestSummary(middle)), middle, last.task)
  }

  /** The content of the summary message after the last round. */
  function Carried(c: Codec, r: Readers, rounds: seq<Round>): string
    requires rounds != []
    decreases |rounds|, 0
  {
    var last := rounds[|rounds| - 1];
    WithBlock(c, STATE_LABEL, last.prose, RoundState(c, r, rounds[..|rounds| - 1], last))
  }

  /** No label stands in the way of reading back what the last round writes. */
  ghost predicate LabelClear(c: Codec, r: Readers, rounds: seq<Round>)
    requires rounds != []
  {
    Quiet(c, STATE_LABEL, rounds[|rounds| - 1].prose, StateOf(r, Elided(rounds), LastTask(rounds)))
  }

  /** Summaries open with their label, and no elided message poses as one. */
  predicate GoodRound(round: Round) {
    SUMMARY_LABEL <= round.prose && forall k :: 0 <= k < |round.slice| ==> !IsSummary(round.slice[k])
  }

  ghost predicate GoodChain(c: Codec, r: Readers, rounds: seq<Round>) {
    rounds == [] || (
      && GoodChain(c, r, rounds[..|rounds| - 1])
      && GoodRound(rounds[|rounds| - 1])
      && SelfContained(rounds[|rounds| - 1].slice)
      && LabelClear(c, r, rounds))
  }

  lemma {:induction false} SelfContainedElided(c: Codec, r: Readers, rounds: seq<Round>)
    requires GoodChain(c, r, rounds)
    ensures SelfContained(Elided(rounds))
  {
    hide LabelClear, GoodRound;
    if rounds != [] {
      var n := |rounds| - 1;
      SelfContainedElided(c, r, rounds[..n]);
      SelfContainedConcat(Elided(rounds[..n]), rounds[n].slice);
    }
  }

  lemma SelfContainedConcat(a: seq<Message>, b: seq<Message>)
    requires SelfContained(a) && SelfContained(b)
    ensures SelfContained(a + b)
  {
    hide AllCalls, Results, HasId;
    AllCallsConcat(a, b);
    ResultsConcat(a, b);
    var ra, rb := Results(a), Results(b);
    forall id ensures HasId(AllCalls(a + b), id) <==> Answers(Results(a + b), id) {
      HasIdConcat(AllCalls(a), AllCalls(b), id);
      AnswersConcat(ra, rb, id);
    }
  }

  lemma AnswersConcat(ra: seq<Message>, rb: seq<Message>, id: string)
    ensures Answers(ra + rb, id) <==> Answers(ra, id) || Answers(rb, id)
  {
    if Answers(ra, id) {
      var k :| 0 <= k < |ra| && ra[k].toolCallId == id;
      assert (ra + rb)[k] == ra[k];
    }
    if Answers(rb, id) {
      var k :| 0 <= k < |rb| && rb[k].toolCallId == id;
      assert (ra + rb)[|ra| + k] == rb[k];
    }
  }

  lemma {:induction false} SummaryAtHead(m: Message, slice: seq<Message>)
    requires IsSummary(m) && forall k :: 0 <= k < |slice| ==> !IsSummary(slice[k])
    ensures LatestSummary([m] + slice) == m.content
  {
    hide IsSummary;
    if slice == [] {
      assert [m] + slice == [m];
    } else {
      assert ([m] + slice)[..|slice|] == [m] + slice[..|slice| - 1];
      SummaryAtHead(m, slice[..|slice| - 1]);
    }
  }

  lemma {:induction false} NoSummary(slice: seq<Message>)
    requires forall k :: 0 <= k < |slice| ==> !IsSummary(slice[k])
    ensures LatestSummary(slice) == ""
  {
    hide IsSummary;
    if slice != [] {
      NoSummary(slice[..|slice| - 1]);
    }
  }

  /** The next state depends only on the calls, the results and the instruction blocks. */
  lemma SameExtracts(r: Readers, prior: State, x: seq<Message>, y: seq<Message>, task: Option<Task>)
    requires AllCalls(x) == AllCalls(y) && Results(x) == Results(y) && InstructionEvents(r, x) == InstructionEvents(r, y)
    ensures NextState(r, prior, x, task) == NextState(r, prior, y, task)
  {
    hide MergeEntries, MergeEdits, Named, CapRecentEdits, LatestPlan, FirstSeenEntries, PathSequence, PathById,
      Notes, SkillById, SkillEvents, SearchIds, ToolEvents, LastSeen, Build, AllCalls, Results, InstructionEvents;
  }

  lemma SummaryOpens(content: string)
    requires SUMMARY_LABEL <= content
    ensures IsSummary(UserText(content)) && !HasPrefix(TrimSpace(content), INSTRUCTIONS_HEADING)
  {
    hide TrimSpace;
    assert SUMMARY_LABEL[0] == '[' && Trimmed(SUMMARY_LABEL);
    KeepsPrefix(SUMMARY_LABEL, content);
    assert TrimSpace(content)[0] == SUMMARY_LABEL[0];
  }

  /** A summary message holds no call, no result and no instruction block. */
  lemma SummaryAddsNothing(r: Readers, prior: State, content: string, slice: seq<Message>, task: Option<Task>)
    requires SUMMARY_LABEL <= content
    ensures IsSummary(UserText(content))
    ensures NextState(r, prior, [UserText(content)] + slice, task) == NextState(r, prior, slice, task)
  {
    hide NextState, IsSummary, HasPrefix, TrimSpace, AllCalls, Results, InstructionEvents;
    var m := UserText(content);
    SummaryOpens(content);
    OneSummary(r, m);
    AllCallsConcat([m], slice);
    ResultsConcat([m], slice);
    InstructionEventsConcat(r, [m], slice);
    SameExtracts(r, prior, [m] + slice, slice, task);
  }

  lemma OneSummary(r: Readers, m: Message)
    requires m.role == User && m.toolCalls == [] && !HasPrefix(TrimSpace(m.content), INSTRUCTIONS_HEADING)
    ensures AllCalls([m]) == [] && Results([m]) == [] && InstructionEvents(r, [m]) == []
  {
    assert [m][..0] == [];
    assert AllCalls([]) == [] && Results([]) == [] && InstructionEvents(r, []) == [];
  }

  predicate IsMark(mark: string) {
    mark != "" && '\n' !in mark
  }

  lemma LabelIsMark()
    ensures IsMark(STATE_LABEL)
  {
    LabelHasNoNewline();
  }

  /** A prose with a block reads back as the block's state, and without one as nothing. */
  lemma BlockReadsBack(c: Codec, mark: string, prose: string, s: State)
    requires LawfulCodec(c) && IsMark(mark) && Quiet(c, mark, prose, s)
    ensures ParseAfter(c, mark, WithBlock(c, mark, prose, s)) == s
  {
    hide BlockLine, TrimSpace;
    if s != EMPTY {
      hide ParseAfter, WithBlock;
      var line := c.encode(s);
      assert c.decode(line) == Some(s) && Trimmed(line) && '\n' !in line;
      BlockContent(c, mark, prose, s);
      ParsesOwnLine(c, prose + "\n\n", mark, line);
    }
  }

  /** What is read back after a round is the state that round wrote. */
  lemma ReadsBack(c: Codec, r: Readers, rounds: seq<Round>, s: State)
    requires rounds != [] && LawfulCodec(c) && LabelClear(c, r, rounds)
    requires s == StateOf(r, Elided(rounds), LastTask(rounds))
    ensures ParseBlock(c, WithBlock(c, STATE_LABEL, rounds[|rounds| - 1].prose, s)) == s
  {
    hide StateOf, Elided, LastTask, LawfulCodec, WithBlock, ParseAfter, Quiet, IsMark;
    LabelIsMark();
    BlockReadsBack(c, STATE_LABEL, rounds[|rounds| - 1].prose, s);
  }

  /** The first round writes what one scan of its slice extracts. */
  lemma FirstRound(c: Codec, r: Readers, last: Round)
    requires GoodRound(last)
    ensures RoundState(c, r, [], last) == StateOf(r, last.slice, last.task)
  {
    hide NextState, ParseBlock, IsSummary;
    NoSummary(last.slice);
    ParseOfNothing(c);
  }

  /** A later round finds the previous summary first, and reads its state back. */
  lemma LaterRound(c: Codec, r: Readers, before: seq<Round>, last: Round, elided: seq<Message>, task: Option<Task>)
    requires before != [] && GoodRound(last) && SUMMARY_LABEL <= Carried(c, r, before)
    requires ParseBlock(c, Carried(c, r, before)) == StateOf(r, elided, task)
    requires Separate(elided, last.slice) && SourcesNamed(r)
    ensures RoundState(c, r, before, last) == StateOf(r, elided + last.slice, if last.task.Some? then last.task else task)
  {
    hide NextState, ParseBlock, IsSummary, Separate, SourcesNamed, StateOf, Carried;
    var content := Carried(c, r, before);
    SummaryAddsNothing(r, ParseBlock(c, content), content, last.slice, last.task);
    SummaryAtHead(UserText(content), last.slice);
    NextStateComposes(r, elided, last.slice, task, last.task);
  }

  /** The chain theorem: after any number of compactions, the summary carries what a
      single scan of every elided message extracts. */
  lemma {:induction false} ChainCarriesFullScan(c: Codec, r: Readers, rounds: seq<Round>)
    requires rounds != [] && LawfulCodec(c) && SourcesNamed(r) && GoodChain(c, r, rounds)
    requires UniqueIds(AllCalls(Elided(rounds)))
    ensures SUMMARY_LABEL <= Carried(c, r, rounds)
    ensures ParseBlock(c, Carried(c, r, rounds)) == StateOf(r, Elided(rounds), LastTask(rounds))
    ensures CarriesOn(r, EMPTY, Elided(rounds), LastTask(rounds), ParseBlock(c, Carried(c, r, rounds)))
  {
    hide CarriesOn, RoundState, StateOf, ParseBlock, LabelClear, AllCalls, UniqueIds, SelfContained, LawfulCodec, SourcesNamed,
      WithBlock, IsSummary;
    var n := |rounds| - 1;
    var before, last := rounds[..n], rounds[n];
    if before == [] {
      assert Elided(rounds) == last.slice;
      assert LastTask(rounds) == last.task;
      FirstRound(c, r, last);
    } else {
      AllCallsConcat(Elided(before), last.slice);
      UniqueConcat(AllCalls(Elided(before)), AllCalls(last.slice));
      ChainCarriesFullScan(c, r, before);
      SelfContainedElided(c, r, before);
      LaterRound(c, r, before, last, Elided(before), LastTask(before));
    }
    var s := StateOf(r, Elided(rounds), LastTask(rounds));
    assert RoundState(c, r, before, last) == s;
    BlockFollows(c, STATE_LABEL, last.prose, s);
    ReadsBack(c, r, rounds, s);
    StateOfCarries(r, Elided(rounds), LastTask(rounds));
  }

  lemma ParseOfNothing(c: Codec)
    ensures ParseBlock(c, "") == EMPTY
  {
    LabelHasNoNewline();
  }

  /* ---- rounds are compactions ---- */

  /** The summary a compaction writes is the one its round carries. */
  lemma CompactionIsRound(t: Tools, opts: Options, ms: seq<Message>, summary: string, boundary: nat,
                          before: seq<Round>, slice: seq<Message>)
    requires SystemEnd(ms) <= boundary <= |ms|
    requires ms[SystemEnd(ms)..boundary] == Middle(t.codec, t.readers, before, slice)
    ensures var prose := Prose(SUMMARY_LABEL, summary, t.artifacts(SystemEnd(ms), boundary));
      && SUMMARY_LABEL <= prose
      && SummaryContent(t, opts, ms, summary, boundary)
         == Carried(t.codec, t.readers, before + [Round(prose, slice, opts.task)])
  {
    hide Prose, NextState, ParseBlock, LatestSummary, WithBlock, SystemEnd, Middle;
    ProseOpens(SUMMARY_LABEL, summary, t.artifacts(SystemEnd(ms), boundary));
    var prose := Prose(SUMMARY_LABEL, summary, t.artifacts(SystemEnd(ms), boundary));
    var rounds := before + [Round(prose, slice, opts.task)];
    assert rounds[..|rounds| - 1] == before;
  }

  /** Whatever the run appends, the next compaction elides the previous summary first. */
  lemma NextElidesSummaryFirst(ms: seq<Message>, boundary: nat, content: string, more: seq<Message>, next: nat)
    requires SystemEnd(ms) <= boundary <= |ms|
    requires SystemEnd(ms) < next <= SystemEnd(ms) + 1 + |ms[boundary..] + more|
    ensures var ms' := Rebuilt(ms, boundary, content) + more;
      && SystemEnd(ms') == SystemEnd(ms)
      && next <= |ms'|
      && ms'[SystemEnd(ms)..next] == [UserText(content)] + (ms[boundary..] + more)[..next - SystemEnd(ms) - 1]
  {
    hide SystemEnd;
    var ms' := Rebuilt(ms, boundary, content) + more;
    assert ms' == ms[..SystemEnd(ms)] + [UserText(content)] + (ms[boundary..] + more);
    SystemEndIs(ms', SystemEnd(ms));
  }

  /* ---- well-formed slices answer their own calls ---- */

  lemma {:induction false} CallPosition(ms: seq<Message>, id: string) returns (i: nat, j: nat)
    requires HasId(AllCalls(ms), id)
    ensures i < |ms| && j < |ms[i].toolCalls| && ms[i].toolCalls[j].id == id
  {
    var n := |ms| - 1;
    HasIdConcat(AllCalls(ms[..n]), ms[n].toolCalls, id);
    if HasId(AllCalls(ms[..n]), id) {
      i, j := CallPosition(ms[..n], id);
    } else {
      i := n;
      j :| 0 <= j < |ms[n].toolCalls| && CallIds(ms[n].toolCalls)[j] == id;
    }
  }

  lemma {:induction false} CallAt(ms: seq<Message>, i: nat, j: nat)
    requires i < |ms| && j < |ms[i].toolCalls|
    ensures HasId(AllCalls(ms), ms[i].toolCalls[j].id)
  {
    var n := |ms| - 1;
    var id := ms[i].toolCalls[j].id;
    HasIdConcat(AllCalls(ms[..n]), ms[n].toolCalls, id);
    if i < n {
      CallAt(ms[..n], i, j);
    } else {
      assert CallIds(ms[n].toolCalls)[j] == id;
    }
  }

  lemma {:induction false} ResultPosition(ms: seq<Message>, t: nat) returns (k: nat)
    requires t < |Results(ms)|
    ensures k < |ms| && IsResult(ms[k]) && ms[k] == Results(ms)[t]
  {
    var n := |ms| - 1;
    if t < |Results(ms[..n])| {
      k := ResultPosition(ms[..n], t);
    } else {
      k := n;
    }
  }

  lemma {:induction false} ResultAt(ms: seq<Message>, k: nat)
    requires k < |ms| && IsResult(ms[k])
    ensures Answers(Results(ms), ms[k].toolCallId)
  {
    var n := |ms| - 1;
    var rest := Results(ms[..n]);
    if k < n {
      ResultAt(ms[..n], k);
      var t :| 0 <= t < |rest| && rest[t].toolCallId == ms[k].toolCallId;
      assert Results(ms)[t] == rest[t];
    } else {
      assert Results(ms)[|rest|] == ms[n];
    }
  }

  /** In a well-formed slice whose calls sit on assistants and carry ids, exactly the
      slice's own calls are answered. */
  lemma WellFormedIsSelfContained(ms: seq<Message>)
    requires WellFormed(ms) && "" !in CallIds(AllCalls(ms))
    requires forall m :: m in ms && m.toolCalls != [] ==> m.role == Assistant
    ensures SelfContained(ms)
  {
    hide WellFormed, AllCalls, Results, SystemPrefix;
    WellFormedIffProviderValid(ms);
    forall id ensures HasId(AllCalls(ms), id) <==> Answers(Results(ms), id) {
      if HasId(AllCalls(ms), id) {
        var i, j := CallPosition(ms, id);
        assert AnsweredAt(ms, i, j);
        ResultAt(ms, i + 1 + j);
      }
      if Answers(Results(ms), id) {
        var t :| 0 <= t < |Results(ms)| && Results(ms)[t].toolCallId == id;
        var k := ResultPosition(ms, t);
        var i :| 0 <= i < k && Owns(ms, i, k);
        assert AnsweredAt(ms, i, k - i - 1);
        CallAt(ms, i, k - i - 1);
      }
    }
  }

  /** What follows the previous summary in an acceptable elided slice answers its own calls. */
  lemma SliceIsSelfContained(content: string, slice: seq<Message>)
    requires WellFormed([UserText(content)] + slice) && "" !in CallIds(AllCalls(slice))
    requires forall m :: m in slice && m.toolCalls != [] ==> m.role == Assistant
    ensures SelfContained(slice)
  {
    hide WellFormed, AllCalls, Results, CallIds;
    var first := [UserText(content)];
    NoCallsNoResults(first);
    AllCallsConcat(first, slice);
    ResultsConcat(first, slice);
    assert [] + AllCalls(slice) == AllCalls(slice) && [] + Results(slice) == Results(slice);
    WellFormedIsSelfContained(first + slice);
  }

  lemma NoCallsNoResults(first: seq<Message>)
    requires |first| == 1 && first[0].role == User && first[0].toolCalls == []
    ensures AllCalls(first) == [] && Results(first) == []
  {
    assert first[..0] == [];
  }
}
