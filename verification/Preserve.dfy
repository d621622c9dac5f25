/** The structured state a compaction carries in its summary, and what a chain of
    compactions adds up to. */
module Preserve {
  import opened Text
  import opened Transcript
  import opened Entries
  import opened Extract
  import opened Listing
  import opened Tail

  const LABEL_HEAD := "## Preserved " + "state (active"
  const LABEL_MIDDLE := " plan + " + "loaded skills;"
  const LABEL_TAIL := " carried " + "across compaction)"
  const STATE_LABEL := LABEL_HEAD + LABEL_MIDDLE + LABEL_TAIL

  /** The running task, as the summary carries it. */
  datatype Task = Task(objective: string, status: string)

  datatype State = State(
    plan: string,
    task: Option<Task>,
    edits: seq<Entry>,
    tools: seq<Entry>,
    skills: seq<Entry>,
    instructions: seq<Entry>)

  const EMPTY := State("", None, [], [], [], [])

  /** The JSON encoding of the state, abstractly. */
  datatype Codec = Codec(encode: State -> string, decode: string -> Option<State>)

  /** An encoding is one trimmed line that decodes to what was encoded. */
  ghost predicate LawfulCodec(c: Codec) {
    forall s :: c.decode(c.encode(s)) == Some(s) && Trimmed(c.encode(s)) && '\n' !in c.encode(s)
  }

  /** No proper suffix of an encoding decodes to the same state. */
  ghost predicate SuffixFree(c: Codec) {
    forall s, k :: 0 < k <= |c.encode(s)| ==> c.decode(TrimSpace(c.encode(s)[k..])) != Some(s)
  }

  /* ---- the block ---- */

  function FormatBlock(c: Codec, mark: string, s: State): string {
    if s == EMPTY then "" else mark + "\n" + c.encode(s)
  }

  /** What follows the label, up to the end of its line. */
  function BlockLine(content: string, mark: string, idx: nat): string
    requires OccursAt(content, mark, idx)
  {
    var rest := content[idx + |mark|..];
    var line := if "\n" <= rest then rest[1..] else rest;
    var nl := IndexByte(line, '\n');
    TrimSpace(if nl >= 0 then line[..nl] else line)
  }

  /** The state after the last label; nothing when it is absent or malformed. */
  function ParseAfter(c: Codec, mark: string, content: string): State {
    var idx := LastIndex(content, mark);
    if idx < 0 then EMPTY else Decoded(c, BlockLine(content, mark, idx))
  }

  function Decoded(c: Codec, line: string): State {
    if line == "" then EMPTY
    else
      match c.decode(line)
      case None => EMPTY
      case Some(s) => s
  }

  function ParseBlock(c: Codec, content: string): State {
    ParseAfter(c, STATE_LABEL, content)
  }

  /** A summary with its state block, if there is anything to preserve. */
  function WithBlock(c: Codec, mark: string, summary: string, s: State): string {
    if FormatBlock(c, mark, s) == "" then summary else summary + "\n\n" + FormatBlock(c, mark, s)
  }

  lemma LineAfterLabel(head: string, mark: string, line: string)
    requires Trimmed(line) && '\n' !in line
    ensures OccursAt(head + mark + "\n" + line, mark, |head|)
    ensures BlockLine(head + mark + "\n" + line, mark, |head|) == line
  {
    var content := head + mark + "\n" + line;
    assert content[|head|..|head| + |mark|] == mark;
    assert content[|head| + |mark|..] == "\n" + line;
    assert ("\n" + line)[1..] == line;
    TrimmedIsKept(line);
  }

  /** The line a label is read with: what follows it, or the line after it when a newline does,
      up to the next newline or the end, trimmed. */
  lemma BlockLineIs(head: string, mark: string, newline: bool, line: string, tail: string)
    requires '\n' !in line && (tail == "" || tail[0] == '\n') && (newline || line != "")
    ensures var content := head + mark + (if newline then "\n" else "") + line + tail;
      OccursAt(content, mark, |head|) && BlockLine(content, mark, |head|) == TrimSpace(line)
  {
    hide TrimSpace;
    var opening := if newline then "\n" else "";
    var content := head + mark + opening + line + tail;
    assert content[|head|..|head| + |mark|] == mark;
    assert content[|head| + |mark|..] == opening + (line + tail);
    assert (opening + (line + tail))[|opening|..] == line + tail;
    assert line != "" ==> line[0] in line;
    LineEnds(line, tail);
  }

  lemma LineEnds(line: string, tail: string)
    requires '\n' !in line && (tail == "" || tail[0] == '\n')
    ensures var nl := IndexByte(line + tail, '\n');
      (if nl >= 0 then (line + tail)[..nl] else line + tail) == line
  {
    var s := line + tail;
    assert forall k :: 0 <= k < |line| ==> s[k] == line[k] && line[k] in line;
    if tail == "" {
      assert s == line;
    } else {
      assert s[|line|] == '\n';
    }
  }

  /** The state is read off the last label's line, whatever follows that line. */
  lemma ParsesLineBeforeMore(c: Codec, head: string, mark: string, newline: bool, line: string, tail: string)
    requires '\n' !in line && (tail == "" || tail[0] == '\n') && (newline || line != "")
    requires LastIndex(head + mark + (if newline then "\n" else "") + line + tail, mark) == |head|
    ensures var s := ParseAfter(c, mark, head + mark + (if newline then "\n" else "") + line + tail);
      s == if TrimSpace(line) == "" then EMPTY else match c.decode(TrimSpace(line)) case None => EMPTY case Some(t) => t
  {
    hide BlockLine, TrimSpace, LastIndex;
    BlockLineIs(head, mark, newline, line, tail);
  }

  lemma InsideOccurrence(content: string, mark: string, j: nat, i: nat)
    requires OccursAt(content, mark, j) && j <= i < j + |mark|
    ensures content[i] in mark
  {
    assert content[j..j + |mark|][i - j] == content[i];
  }

  /** A label after the block's own one starts inside the encoding: one that started
      before it would have to hold the newline that follows the label. */
  lemma LabelPositions(head: string, mark: string, line: string, j: nat)
    requires '\n' !in mark && j > |head|
    requires OccursAt(head + mark + "\n" + line, mark, j)
    ensures j > |head| + |mark|
    ensures OccursAt(line, mark, j - |head| - |mark| - 1)
  {
    var content := head + mark + "\n" + line;
    var nl := |head| + |mark|;
    assert content[nl] == '\n';
    if j <= nl {
      InsideOccurrence(content, mark, j, nl);
      assert false;
    }
    var k := j - nl - 1;
    assert content[nl + 1..] == line;
    assert line[k..k + |mark|] == content[j..j + |mark|];
  }

  lemma SliceInto(pre: string, line: string, i: nat, j: nat)
    requires i <= j <= |line|
    ensures (pre + line)[|pre| + i..|pre| + j] == line[i..j]
    ensures (pre + line)[|pre| + i..] == line[i..]
  {
  }

  /** After a label inside the encoding, the parser sees only a proper suffix of it. */
  lemma SuffixLine(pre: string, mark: string, line: string, k: nat)
    requires OccursAt(line, mark, k) && '\n' !in line
    ensures OccursAt(pre + line, mark, |pre| + k)
    ensures BlockLine(pre + line, mark, |pre| + k) == TrimSpace(line[k + |mark|..])
  {
    hide TrimSpace, IndexByte;
    SliceInto(pre, line, k, k + |mark|);
    SliceInto(pre, line, k + |mark|, |line|);
    NoNewlineAfter(line, k + |mark|);
    var content, rest := pre + line, line[k + |mark|..];
    assert content[|pre| + k + |mark|..] == rest;
  }

  lemma NoNewlineAfter(line: string, k: nat)
    requires '\n' !in line && k <= |line|
    ensures !("\n" <= line[k..]) && IndexByte(line[k..], '\n') < 0
  {
    var rest := line[k..];
    assert forall i :: 0 <= i < |rest| ==> rest[i] == line[k + i] && line[k + i] in line;
    assert rest != "" ==> rest[0] != '\n';
  }

  /** The last label is the block's own one exactly when the line holds none. */
  lemma LastLabelIsOwn(head: string, mark: string, line: string)
    requires mark != "" && '\n' !in mark && Trimmed(line) && '\n' !in line
    ensures var idx := LastIndex(head + mark + "\n" + line, mark);
      && idx >= |head|
      && (idx == |head| <==> !Contains(line, mark))
      && (idx > |head| ==> idx > |head| + |mark| && OccursAt(line, mark, idx - |head| - |mark| - 1))
  {
    hide BlockLine;
    var idx := LastIndex(head + mark + "\n" + line, mark);
    LineAfterLabel(head, mark, line);
    if idx > |head| {
      LabelPositions(head, mark, line, idx);
    } else {
      forall k | 0 <= k <= |line| ensures !OccursAt(line, mark, k) {
        NoLaterLabel(head, mark, line, k);
      }
    }
  }

  lemma BlockContent(c: Codec, mark: string, summary: string, s: State)
    requires s != EMPTY && mark != ""
    ensures WithBlock(c, mark, summary, s) == summary + "\n\n" + mark + "\n" + c.encode(s)
  {
    var line := c.encode(s);
    assert summary + "\n\n" + (mark + "\n" + line) == summary + "\n\n" + mark + "\n" + line;
  }

  /** The parser reads the encoding back when its own label is the last one, and not
      when a later label leaves it a proper suffix. */
  lemma ParsesOwnLine(c: Codec, head: string, mark: string, line: string)
    requires mark != "" && '\n' !in mark && Trimmed(line) && '\n' !in line
    ensures !Contains(line, mark) ==> ParseAfter(c, mark, head + mark + "\n" + line) == Decoded(c, line)
  {
    hide BlockLine, LastIndex, Contains, TrimSpace, Trimmed, Decoded;
    LineAfterLabel(head, mark, line);
    LastLabelIsOwn(head, mark, line);
  }

  lemma ParsesSuffix(c: Codec, head: string, mark: string, line: string) returns (k: nat)
    requires mark != "" && '\n' !in mark && Trimmed(line) && '\n' !in line && Contains(line, mark)
    ensures 0 < k <= |line|
    ensures ParseAfter(c, mark, head + mark + "\n" + line) == Decoded(c, TrimSpace(line[k..]))
  {
    hide BlockLine, LastIndex, Contains, TrimSpace, Trimmed, Decoded;
    LastLabelIsOwn(head, mark, line);
    var pre := head + mark + "\n";
    var at := LastIndex(pre + line, mark) - |pre|;
    SuffixLine(pre, mark, line, at);
    k := at + |mark|;
  }

  /** No label stands where the parser would look past the block: in the encoding, or, when
      there is no block, in the prose before something that decodes. */
  predicate Quiet(c: Codec, mark: string, prose: string, s: State) {
    if s != EMPTY then !Contains(c.encode(s), mark)
    else LastIndex(prose, mark) < 0 || Decoded(c, BlockLine(prose, mark, LastIndex(prose, mark))) == EMPTY
  }

  /** A summary reads back as the state it was given exactly when no label stands in the way. */
  lemma RoundTripIff(c: Codec, mark: string, summary: string, s: State)
    requires LawfulCodec(c) && SuffixFree(c)
    requires mark != "" && '\n' !in mark
    ensures ParseAfter(c, mark, WithBlock(c, mark, summary, s)) == s <==> Quiet(c, mark, summary, s)
  {
    hide Contains, TrimSpace, BlockLine;
    if s != EMPTY {
      hide ParseAfter, WithBlock;
      var line := c.encode(s);
      assert c.decode(line) == Some(s);
      BlockContent(c, mark, summary, s);
      ParsesOwnLine(c, summary + "\n\n", mark, line);
      if Contains(line, mark) {
        var k := ParsesSuffix(c, summary + "\n\n", mark, line);
        assert c.decode(TrimSpace(c.encode(s)[k..])) != Some(s);
      }
    }
  }

  /** With nothing to carry, a prose without the label reads back as nothing. */
  lemma PlainProseReadsBack(c: Codec, mark: string, prose: string)
    requires !Contains(prose, mark)
    ensures ParseAfter(c, mark, WithBlock(c, mark, prose, EMPTY)) == EMPTY
  {
    var at := LastIndex(prose, mark);
    assert at >= 0 ==> OccursAt(prose, mark, at);
  }

  /** A prose whose last label is followed by the encoding of a state reads back as that
      state, although nothing was to be carried. */
  lemma QuotedBlockReadsAsState(c: Codec, mark: string, prose: string, s: State)
    requires LawfulCodec(c) && LastIndex(prose, mark) >= 0 && BlockLine(prose, mark, LastIndex(prose, mark)) == c.encode(s)
    ensures ParseAfter(c, mark, WithBlock(c, mark, prose, EMPTY)) == s
  {
    hide BlockLine;
    assert c.decode(c.encode(s)) == Some(s) && Trimmed(c.encode(s));
  }

  lemma NoLaterLabel(head: string, mark: string, line: string, k: nat)
    requires k <= |line| && LastIndex(head + mark + "\n" + line, mark) <= |head|
    ensures !OccursAt(line, mark, k)
  {
    var content := head + mark + "\n" + line;
    var j := |head| + |mark| + 1 + k;
    assert !OccursAt(content, mark, j);
    if k + |mark| <= |line| {
      assert content[j..j + |mark|] == line[k..k + |mark|];
    }
  }

  lemma LabelHasNoNewline()
    ensures STATE_LABEL != "" && '\n' !in STATE_LABEL
  {
    assert '\n' !in LABEL_HEAD && '\n' !in LABEL_MIDDLE && '\n' !in LABEL_TAIL;
  }

  /* ---- one step ---- */

  function Named(es: seq<Entry>): seq<Entry> {
    FilterEntries(es, {""})
  }

  predicate IsSummary(m: Message) {
    m.role == User && HasPrefix(TrimSpace(m.content), SUMMARY_LABEL)
  }

  /** The content of the most recent injected summary, or nothing. */
  function LatestSummary(ms: seq<Message>): string {
    if ms == [] then ""
    else if IsSummary(ms[|ms| - 1]) then ms[|ms| - 1].content
    else LatestSummary(ms[..|ms| - 1])
  }

  /** Message `k` is the last to open, after white space, with the summary label. */
  predicate LastSummary(ms: seq<Message>, k: nat) {
    && k < |ms| && ms[k].role == User && SUMMARY_LABEL <= TrimSpace(ms[k].content)
    && forall j :: k < j < |ms| && ms[j].role == User ==> !(SUMMARY_LABEL <= TrimSpace(ms[j].content))
  }

  lemma {:induction false} LatestSummaryIs(ms: seq<Message>) returns (k: int)
    ensures if k < 0 then LatestSummary(ms) == "" && forall j: nat :: !LastSummary(ms, j)
            else LastSummary(ms, k) && LatestSummary(ms) == ms[k].content
  {
    hide TrimSpace, SUMMARY_LABEL;
    k := |ms| - 1;
    if ms != [] && !IsSummary(ms[k]) {
      k := LatestSummaryIs(ms[..|ms| - 1]);
      assert forall j: nat :: LastSummary(ms, j) ==> LastSummary(ms[..|ms| - 1], j);
    }
  }

  /** Carried state overlaid with what the elided messages hold. */
  function NextState(r: Readers, prior: State, ms: seq<Message>, task: Option<Task>): State {
    State(
      if LatestPlan(r, AllCalls(ms)) != "" then LatestPlan(r, AllCalls(ms)) else prior.plan,
      if task.Some? then task else prior.task,
      CapRecentEdits(MergeEdits(Named(prior.edits), CapRecentEdits(EditEntries(r, ms)))),
      MergeEntries(Named(prior.tools), ToolSchemas(r, ms)),
      MergeEntries(Named(prior.skills), Skills(r, ms)),
      MergeEntries(Named(prior.instructions), Instructions(r, ms)))
  }

  /* -- the next state, said of the messages -- */

  ghost predicate PlanCarried(r: Readers, prior: string, cs: seq<ToolCall>, plan: string) {
    if NoPlan(r, cs) then plan == prior else exists k: nat :: LastPlan(r, cs, k) && plan == r.plan(cs[k].arguments)
  }

  /** A source with an instruction block carries the body of its last one; the others stay. */
  ghost predicate InstructionsCarried(r: Readers, prior: seq<Entry>, ms: seq<Message>, out: seq<Entry>) {
    forall name, body :: Entry(name, body) in out <==>
      || (exists k: nat :: LastInstruction(r, ms, name, k, |ms|) && r.instruction(ms[k].content).body == body)
      || (name != "" && Entry(name, body) in prior && forall k :: 0 <= k < |ms| ==> !Instructs(r, ms[k], name))
  }

  /** A loaded skill carries the capped body of its last load; the others stay. */
  ghost predicate SkillsCarried(r: Readers, prior: seq<Entry>, ms: seq<Message>, out: seq<Entry>) {
    var ids := SkillById(r, AllCalls(ms));
    forall name, body :: Entry(name, body) in out <==>
      || (exists k: nat :: LastLoad(ms, ids, name, k, |ms|) && r.capBody(TrimSpace(ms[k].content)) == body)
      || (name != "" && Entry(name, body) in prior && forall k :: 0 <= k < |ms| ==> !LoadsSkill(ms[k], ids, name))
  }

  /** A listed tool carries its last schema; the others stay. */
  ghost predicate ToolsCarried(r: Readers, prior: seq<Entry>, ms: seq<Message>, out: seq<Entry>) {
    var ids := SearchIds(AllCalls(ms));
    forall name, body :: Entry(name, body) in out <==>
      || (exists k: nat, t: nat :: LastSchema(r, ms, ids, name, k, t) && r.toolEntries(ms[k].content)[t].body == body)
      || (name != "" && Entry(name, body) in prior && forall k :: 0 <= k < |ms| ==> !Lists(r, ms[k], ids, name))
  }

  /** An edited path carries its note when fewer than twenty others were edited later, and an
      earlier one stays when, of those that stay and those edited, fewer than twenty follow it. */
  ghost predicate EditsCarried(r: Readers, prior: seq<Entry>, ms: seq<Message>, out: seq<Entry>) {
    forall path, note :: Entry(path, note) in out <==>
      RecentlyEdited(r, ms, path, note) || StaysEdited(prior, EditedPaths(r, AllCalls(ms)), path, note)
  }

  ghost predicate RecentlyEdited(r: Readers, ms: seq<Message>, path: string, note: string) {
    var cs := AllCalls(ms);
    exists k: nat :: LastEdit(r, cs, path, k) && |LaterPaths(r, cs, k)| < 20 && Noted(r, ms, path, note)
  }

  ghost predicate StaysEdited(prior: seq<Entry>, edited: set<string>, path: string, note: string) {
    exists i :: 0 <= i < |prior| && prior[i] == Entry(path, note) && path !in {""} + edited
                && |KeptAfter(prior, {""} + edited, i)| + |edited| < 20
  }

  /** What a state carries on from an earlier one and the messages elided since. */
  ghost predicate CarriesOn(r: Readers, prior: State, ms: seq<Message>, task: Option<Task>, s: State) {
    && PlanCarried(r, prior.plan, AllCalls(ms), s.plan)
    && s.task == (if task.Some? then task else prior.task)
    && EditsCarried(r, prior.edits, ms, s.edits)
    && ToolsCarried(r, prior.tools, ms, s.tools)
    && SkillsCarried(r, prior.skills, ms, s.skills)
    && InstructionsCarried(r, prior.instructions, ms, s.instructions)
  }

  /** What a merge with a fresh listing holds. */
  lemma MergedOnto(prior: seq<Entry>, events: seq<Entry>, name: string, body: string)
    ensures Entry(name, body) in MergeEntries(Named(prior), FirstSeenEntries(events)) <==>
      || Entry(name, body) in FirstSeenEntries(events)
      || (name != "" && Entry(name, body) in prior && name !in Bodies(events))
  {
    hide FirstSeenEntries, Bodies, MergeEntries, FilterEntries;
    ListingIsDistinct(events);
    ListingNames(events, name);
    MergedListing(Named(prior), FirstSeenEntries(events), Entry(name, body));
    FilterMembers(prior, {""}, Entry(name, body));
    assert Entry(name, body) in FirstSeenEntries(events) ==> name in Names(FirstSeenEntries(events)) by {
      if Entry(name, body) in FirstSeenEntries(events) {
        var k :| 0 <= k < |FirstSeenEntries(events)| && FirstSeenEntries(events)[k] == Entry(name, body);
        assert Names(FirstSeenEntries(events))[k] == name;
      }
    }
  }

  lemma NextInstructions(r: Readers, prior: seq<Entry>, ms: seq<Message>)
    ensures InstructionsCarried(r, prior, ms, MergeEntries(Named(prior), Instructions(r, ms)))
  {
    hide InstructionEvents, FirstSeenEntries, Bodies, Instructs, MergeEntries, Named;
    assert ms[..|ms|] == ms;
    forall name, body ensures Entry(name, body) in MergeEntries(Named(prior), Instructions(r, ms)) <==>
      || (exists k: nat :: LastInstruction(r, ms, name, k, |ms|) && r.instruction(ms[k].content).body == body)
      || (name != "" && Entry(name, body) in prior && forall k :: 0 <= k < |ms| ==> !Instructs(r, ms[k], name))
    {
      var k := InstructionBodies(r, ms, name, |ms|);
      InstructionIsListed(r, ms, name, body);
      MergedOnto(prior, InstructionEvents(r, ms), name, body);
    }
  }

  lemma NextSkills(r: Readers, prior: seq<Entry>, ms: seq<Message>)
    ensures SkillsCarried(r, prior, ms, MergeEntries(Named(prior), Skills(r, ms)))
  {
    hide SkillEvents, SkillById, AllCalls, Results, FirstSeenEntries, Bodies, LoadsSkill, TrimSpace, MergeEntries, Named;
    var ids := SkillById(r, AllCalls(ms));
    assert ms[..|ms|] == ms;
    forall name, body ensures Entry(name, body) in MergeEntries(Named(prior), Skills(r, ms)) <==>
      || (exists k: nat :: LastLoad(ms, ids, name, k, |ms|) && r.capBody(TrimSpace(ms[k].content)) == body)
      || (name != "" && Entry(name, body) in prior && forall k :: 0 <= k < |ms| ==> !LoadsSkill(ms[k], ids, name))
    {
      var k := SkillBodies(r, ms, ids, name, |ms|);
      SkillIsListed(r, ms, name, body);
      MergedOnto(prior, SkillEvents(r, Results(ms), ids), name, body);
    }
  }

  lemma NextTools(r: Readers, prior: seq<Entry>, ms: seq<Message>)
    ensures ToolsCarried(r, prior, ms, MergeEntries(Named(prior), ToolSchemas(r, ms)))
  {
    hide ToolEvents, SearchIds, AllCalls, Results, FirstSeenEntries, Bodies, Lists, MergeEntries, Named;
    var ids := SearchIds(AllCalls(ms));
    assert ms[..|ms|] == ms;
    forall name, body ensures Entry(name, body) in MergeEntries(Named(prior), ToolSchemas(r, ms)) <==>
      || (exists k: nat, t: nat :: LastSchema(r, ms, ids, name, k, t) && r.toolEntries(ms[k].content)[t].body == body)
      || (name != "" && Entry(name, body) in prior && forall k :: 0 <= k < |ms| ==> !Lists(r, ms[k], ids, name))
    {
      var k := ToolBodies(r, ms, ids, name, |ms|);
      ToolIsListed(r, ms, name, body);
      MergedOnto(prior, ToolEvents(r, Results(ms), ids), name, body);
    }
  }

  lemma EditCount(r: Readers, ms: seq<Message>)
    ensures var names := Names(EditEntries(r, ms));
      |names| == |EditedPaths(r, AllCalls(ms))| && NameSet(names) == EditedPaths(r, AllCalls(ms)) && Distinct(names)
  {
    hide LastSeen, PathSequence, PathById, Notes, Results, AllCalls, EditedPaths;
    var paths := PathSequence(r, AllCalls(ms));
    PathsEdited(r, AllCalls(ms));
    LastSeenMembers(paths);
    DistinctCount(LastSeen(paths));
    assert Names(EditEntries(r, ms)) == LastSeen(paths);
    assert NameSet(LastSeen(paths)) == NameSet(paths);
  }

  lemma RecentEditsAre(r: Readers, ms: seq<Message>, path: string, note: string)
    ensures Entry(path, note) in CapRecentEdits(EditEntries(r, ms)) <==> RecentlyEdited(r, ms, path, note)
  {
    hide AllCalls, LaterPaths, Noted, EditEntries, LastEdit, EditedPaths;
    var cs := AllCalls(ms);
    if path in EditedPaths(r, cs) {
      var k := EditedHasLast(r, cs, path);
      RecentIffFewLater(r, ms, path, note, k);
    } else {
      EditIsListed(r, ms, path, note);
    }
    forall k: nat | LastEdit(r, cs, path, k)
      ensures path in EditedPaths(r, cs)
      ensures Entry(path, note) in CapRecentEdits(EditEntries(r, ms)) <==> Noted(r, ms, path, note) && |LaterPaths(r, cs, k)| < 20
    {
      LastEditIsEdited(r, cs, path, k);
      RecentIffFewLater(r, ms, path, note, k);
    }
  }

  /** With twenty or more fresh paths nothing older stays. */
  lemma FullOfFresh(prior: seq<Entry>, es: seq<Entry>)
    requires Distinct(Names(es)) && |es| >= 20
    ensures CapRecentEdits(MergeEdits(Named(prior), CapRecentEdits(es))) == CapRecentEdits(es)
  {
    hide FilterEntries, MergeEdits, NameSet;
    var n := CapRecentEdits(es);
    assert Names(n) == Names(es)[|es| - |n|..];
    MergeDistinct(Named(prior), n);
    SuffixOfLonger(FilterEntries(Named(prior), NameSet(Names(n))), n);
  }

  /** With fewer, the older entries share the room that is left. */
  lemma RoomForOlder(prior: seq<Entry>, es: seq<Entry>)
    requires Distinct(Names(es)) && |es| < 20
    ensures CapRecentEdits(MergeEdits(Named(prior), CapRecentEdits(es)))
      == LastOf(FilterEntries(prior, {""} + NameSet(Names(es))), 20 - |es|) + es
  {
    hide FilterEntries, MergeEdits, NameSet;
    MergeDistinct(Named(prior), es);
    FilterTwice(prior, {""}, NameSet(Names(es)));
    LastOfJoined(FilterEntries(prior, {""} + NameSet(Names(es))), es);
  }

  lemma LastOfJoined(kept: seq<Entry>, es: seq<Entry>)
    requires |es| < 20
    ensures CapRecentEdits(kept + es) == LastOf(kept, 20 - |es|) + es && CapRecentEdits(es) == es
  {
  }

  lemma EditsAfterCap(prior: seq<Entry>, es: seq<Entry>, path: string, note: string)
    requires Distinct(Names(es)) && |NameSet(Names(es))| == |es|
    ensures Entry(path, note) in CapRecentEdits(MergeEdits(Named(prior), CapRecentEdits(es))) <==>
      Entry(path, note) in CapRecentEdits(es) || StaysEdited(prior, NameSet(Names(es)), path, note)
  {
    hide FilterEntries, MergeEdits, KeptAfter, NameSet, LastOf, Named;
    if |es| >= 20 {
      FullOfFresh(prior, es);
    } else {
      RoomForOlder(prior, es);
      LastKept(prior, {""} + NameSet(Names(es)), 20 - |es|, Entry(path, note));
    }
  }

  lemma NextEdits(r: Readers, prior: seq<Entry>, ms: seq<Message>)
    ensures EditsCarried(r, prior, ms, CapRecentEdits(MergeEdits(Named(prior), CapRecentEdits(EditEntries(r, ms)))))
  {
    hide RecentlyEdited, StaysEdited, AllCalls, EditEntries, EditedPaths, MergeEdits, Named, CapRecentEdits, NameSet;
    EditCount(r, ms);
    var es := EditEntries(r, ms);
    forall path, note
      ensures Entry(path, note) in CapRecentEdits(MergeEdits(Named(prior), CapRecentEdits(es))) <==>
        RecentlyEdited(r, ms, path, note) || StaysEdited(prior, EditedPaths(r, AllCalls(ms)), path, note)
    {
      RecentEditsAre(r, ms, path, note);
      EditsAfterCap(prior, es, path, note);
    }
  }

  /** The next state carries on what the messages hold, and what they leave alone. */
  lemma NextStateCarries(r: Readers, prior: State, ms: seq<Message>, task: Option<Task>)
    ensures CarriesOn(r, prior, ms, task, NextState(r, prior, ms, task))
  {
    hide AllCalls, LatestPlan, NoPlan, LastPlan, MergeEntries, MergeEdits, Named, CapRecentEdits, EditEntries,
      ToolSchemas, Skills, Instructions, EditsCarried, ToolsCarried, SkillsCarried, InstructionsCarried;
    var k := LatestPlanIs(r, AllCalls(ms));
    PlanFound(r, AllCalls(ms), k);
    NextEdits(r, prior.edits, ms);
    NextTools(r, prior.tools, ms);
    NextSkills(r, prior.skills, ms);
    NextInstructions(r, prior.instructions, ms);
  }

  lemma PlanFound(r: Readers, cs: seq<ToolCall>, k: int)
    ensures k >= 0 && LastPlan(r, cs, k) ==> r.plan(cs[k].arguments) != ""
  {
  }

  method PreservedToEntries(items: seq<Entry>) returns (entries: seq<Entry>)
    ensures entries == Named(items)
  {
    entries := [];
    for i := 0 to |items|
      invariant entries == Named(items[..i])
    {
      if items[i].name != "" {
        entries := entries + [items[i]];
      }
      assert items[..i + 1][..i] == items[..i];
    }
    assert items[..|items|] == items;
  }

  method LatestSummaryContent(messages: seq<Message>) returns (content: string)
    ensures content == LatestSummary(messages)
  {
    hide IsSummary;
    var i := |messages|;
    assert messages[..i] == messages;
    while i > 0
      invariant 0 <= i <= |messages|
      invariant LatestSummary(messages[..i]) == LatestSummary(messages)
    {
      i := i - 1;
      assert messages[..i + 1][..i] == messages[..i];
      if IsSummary(messages[i]) {
        return messages[i].content;
      }
    }
    content := "";
  }

  method AppendPreservedState(c: Codec, r: Readers, summary: string, middle: seq<Message>, task: Option<Task>)
    returns (content: string)
    ensures var prior := ParseBlock(c, LatestSummary(middle));
      && content == WithBlock(c, STATE_LABEL, summary, NextState(r, prior, middle, task))
      && CarriesOn(r, prior, middle, task, NextState(r, prior, middle, task))
  {
    hide LatestSummary, ParseBlock, EditEntries, ToolSchemas, Skills, Instructions, LatestPlan, AllCalls,
      MergeEdits, MergeEntries, CapRecentEdits, Named, CarriesOn;
    var latest := LatestSummaryContent(middle);
    var prior := ParseBlock(c, latest);
    var plan := ExtractLatestPlan(r, middle);
    if plan == "" {
      plan := prior.plan;
    }
    var priorEdits := PreservedToEntries(prior.edits);
    var recent := RecentEdits(r, middle);
    var edits := MergeRecentEdits(priorEdits, recent);
    edits := CapRecentEdits(edits);
    var priorTools := PreservedToEntries(prior.tools);
    var loadedTools := LoadedToolSchemas(r, middle);
    var tools := MergeSkillEntries(priorTools, loadedTools);
    var priorSkills := PreservedToEntries(prior.skills);
    var loaded := LoadedSkills(r, middle);
    var skills := MergeSkillEntries(priorSkills, loaded);
    var priorInstructions := PreservedToEntries(prior.instructions);
    var found := ProjectInstructionEntries(r, middle);
    var instructions := MergeSkillEntries(priorInstructions, found);
    NextStateCarries(r, prior, middle, task);
    var state := State(plan, if task.Some? then task else prior.task, edits, tools, skills, instructions);
    content := WithBlock(c, STATE_LABEL, summary, state);
  }
}
