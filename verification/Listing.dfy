/** What the extracted state holds, said of the messages it is read from: each listing by
    the last call or message that decides it. */
module Listing {
  import opened Text
  import opened Transcript
  import opened Entries
  import opened Extract
  import opened Prune

  /* ---- the calls ---- */

  /** Every call of every message, each after those before it. */
  lemma {:induction false} CallsInOrder(ms: seq<Message>, i: nat, j: nat)
    requires i < |ms| && j < |ms[i].toolCalls|
    ensures |AllCalls(ms[..i + 1])| == |AllCalls(ms[..i])| + |ms[i].toolCalls|
    ensures var at := |AllCalls(ms[..i])| + j; at < |AllCalls(ms)| && AllCalls(ms)[at] == ms[i].toolCalls[j]
  {
    var n := |ms| - 1;
    AllCallsStep(ms, i);
    AllCallsStep(ms, n);
    assert ms[..n + 1] == ms;
    if i < n {
      CallsInOrder(ms[..n], i, j);
      assert ms[..n][..i] == ms[..i];
    }
  }

  predicate HoldsPlan(r: Readers, c: ToolCall) {
    c.name == TODO_WRITE && r.plan(c.arguments) != ""
  }

  /** Call `k` is the last to hold a plan. */
  predicate LastPlan(r: Readers, cs: seq<ToolCall>, k: nat) {
    k < |cs| && HoldsPlan(r, cs[k]) && forall t :: k < t < |cs| ==> !HoldsPlan(r, cs[t])
  }

  predicate NoPlan(r: Readers, cs: seq<ToolCall>) {
    forall k :: 0 <= k < |cs| ==> !HoldsPlan(r, cs[k])
  }

  /** The plan is that of the last call that holds one, and empty when none does. */
  lemma {:induction false} LatestPlanIs(r: Readers, cs: seq<ToolCall>) returns (k: int)
    ensures if NoPlan(r, cs) then LatestPlan(r, cs) == ""
      else k >= 0 && LastPlan(r, cs, k) && LatestPlan(r, cs) == r.plan(cs[k].arguments)
  {
    k := |cs| - 1;
    if cs != [] && !HoldsPlan(r, cs[k]) {
      assert forall t :: 0 <= t < |cs| - 1 ==> cs[..|cs| - 1][t] == cs[t];
      k := LatestPlanIs(r, cs[..|cs| - 1]);
    }
  }

  predicate EditsPath(r: Readers, c: ToolCall) {
    (c.name == WRITE_FILE || c.name == EDIT_FILE) && r.editPath(c.arguments) != ""
  }

  /** Call `k` is the last edit of the path. */
  predicate LastEdit(r: Readers, cs: seq<ToolCall>, path: string, k: nat) {
    && k < |cs| && EditsPath(r, cs[k]) && r.editPath(cs[k].arguments) == path
    && forall t :: k < t < |cs| && EditsPath(r, cs[t]) ==> r.editPath(cs[t].arguments) != path
  }

  /** Call `k` is the last edit under the id. */
  predicate LastEditUnder(r: Readers, cs: seq<ToolCall>, id: string, k: nat) {
    && id != "" && k < |cs| && cs[k].id == id && EditsPath(r, cs[k])
    && forall t :: k < t < |cs| && cs[t].id == id ==> !EditsPath(r, cs[t])
  }

  /** An id stands for the path of the last edit under it. */
  lemma {:induction false} PathByIdIs(r: Readers, cs: seq<ToolCall>, id: string) returns (k: int)
    ensures id in PathById(r, cs) <==> k >= 0
    ensures k >= 0 ==> LastEditUnder(r, cs, id, k) && PathById(r, cs)[id] == r.editPath(cs[k].arguments)
    ensures k < 0 ==> forall t: nat :: !LastEditUnder(r, cs, id, t)
  {
    k := |cs| - 1;
    if cs != [] && !(id != "" && cs[k].id == id && EditsPath(r, cs[k])) {
      assert forall t :: 0 <= t < |cs| - 1 ==> cs[..|cs| - 1][t] == cs[t];
      k := PathByIdIs(r, cs[..|cs| - 1], id);
      assert forall t: nat :: LastEditUnder(r, cs, id, t) ==> LastEditUnder(r, cs[..|cs| - 1], id, t);
    }
  }

  /** Call `k` is the last skill load under the id. */
  predicate LastSkillUnder(cs: seq<ToolCall>, id: string, k: nat) {
    && id != "" && k < |cs| && cs[k].id == id && cs[k].name == SKILL
    && forall t :: k < t < |cs| && cs[t].id == id ==> cs[t].name != SKILL
  }

  /** An id stands for the skill the last load under it names. */
  lemma {:induction false} SkillByIdIs(r: Readers, cs: seq<ToolCall>, id: string) returns (k: int)
    ensures id in SkillById(r, cs) <==> k >= 0
    ensures k >= 0 ==> LastSkillUnder(cs, id, k) && SkillById(r, cs)[id] == r.skillName(cs[k].arguments)
    ensures k < 0 ==> forall t: nat :: !LastSkillUnder(cs, id, t)
  {
    k := |cs| - 1;
    if cs != [] && !(id != "" && cs[k].id == id && cs[k].name == SKILL) {
      assert forall t :: 0 <= t < |cs| - 1 ==> cs[..|cs| - 1][t] == cs[t];
      k := SkillByIdIs(r, cs[..|cs| - 1], id);
      assert forall t: nat :: LastSkillUnder(cs, id, t) ==> LastSkillUnder(cs[..|cs| - 1], id, t);
    }
  }

  /** The search ids are those of the tool-search calls. */
  lemma {:induction false} SearchIdsAre(cs: seq<ToolCall>, id: string)
    ensures id in SearchIds(cs) <==> id != "" && exists k :: 0 <= k < |cs| && cs[k].name == TOOL_SEARCH && cs[k].id == id
  {
    if cs != [] {
      var n := |cs| - 1;
      SearchIdsAre(cs[..n], id);
      assert forall t :: 0 <= t < n ==> cs[..n][t] == cs[t];
    }
  }

  /** Call `k` is the last with a name under the id. */
  predicate LastNamed(cs: seq<ToolCall>, id: string, k: nat) {
    && id != "" && k < |cs| && cs[k].id == id && cs[k].name != ""
    && forall t :: k < t < |cs| && cs[t].id == id ==> cs[t].name == ""
  }

  lemma {:induction false} AddCallsConcat(names: map<string, string>, x: seq<ToolCall>, y: seq<ToolCall>)
    ensures AddCalls(names, x + y) == AddCalls(AddCalls(names, x), y)
  {
    if y == [] {
      assert x + y == x;
    } else {
      assert (x + y)[..|x + y| - 1] == x + y[..|y| - 1];
      AddCallsConcat(names, x, y[..|y| - 1]);
    }
  }

  lemma {:induction false} ToolNamesOfCalls(ms: seq<Message>)
    ensures ToolNames(ms) == AddCalls(map[], AllCalls(ms))
  {
    if ms != [] {
      var n := |ms| - 1;
      ToolNamesOfCalls(ms[..n]);
      AddCallsConcat(map[], AllCalls(ms[..n]), ms[n].toolCalls);
    }
  }

  lemma {:induction false} NamesOfCalls(cs: seq<ToolCall>, id: string) returns (k: int)
    ensures id in AddCalls(map[], cs) <==> k >= 0
    ensures k >= 0 ==> LastNamed(cs, id, k) && AddCalls(map[], cs)[id] == cs[k].name
    ensures k < 0 ==> forall t: nat :: !LastNamed(cs, id, t)
  {
    k := |cs| - 1;
    if cs != [] && !(id != "" && cs[k].id == id && cs[k].name != "") {
      assert forall t :: 0 <= t < |cs| - 1 ==> cs[..|cs| - 1][t] == cs[t];
      k := NamesOfCalls(cs[..|cs| - 1], id);
      assert forall t: nat :: LastNamed(cs, id, t) ==> LastNamed(cs[..|cs| - 1], id, t);
    }
  }

  /** The prune and the judge name a result's tool by the last named call under its id. */
  lemma ToolNameIs(ms: seq<Message>, id: string) returns (k: int)
    ensures if k < 0 then NameOf(ToolNames(ms), id) == "" && forall t: nat :: !LastNamed(AllCalls(ms), id, t)
            else LastNamed(AllCalls(ms), id, k) && NameOf(ToolNames(ms), id) == AllCalls(ms)[k].name
  {
    hide ToolNames, AllCalls, AddCalls;
    ToolNamesOfCalls(ms);
    k := NamesOfCalls(AllCalls(ms), id);
  }

  /* ---- a listing ---- */

  lemma NamesConcat(a: seq<Entry>, b: seq<Entry>)
    ensures Names(a + b) == Names(a) + Names(b)
  {
  }

  /** Entries list each name with its body. */
  lemma ListedBody(order: seq<string>, bodies: map<string, string>, name: string, body: string)
    ensures Entry(name, body) in Build(order, bodies) <==> name in order && body == Get(bodies, name)
  {
    if name in order {
      var k :| 0 <= k < |order| && order[k] == name;
      assert Build(order, bodies)[k] == Entry(name, Get(bodies, name));
    }
  }

  /** A listing holds each name the events name, with its last body. */
  lemma FirstSeenLists(events: seq<Entry>, name: string, body: string)
    ensures Entry(name, body) in FirstSeenEntries(events) <==> name in Bodies(events) && Bodies(events)[name] == body
  {
    hide FirstSeen, Bodies;
    BodiesKeys(events);
    FirstSeenMembers(Names(events));
    ListedBody(FirstSeen(Names(events)), Bodies(events), name, body);
  }

  lemma ListingIsDistinct(events: seq<Entry>)
    ensures Distinct(Names(FirstSeenEntries(events)))
  {
    hide FirstSeen, Bodies;
    FirstSeenMembers(Names(events));
    assert Names(FirstSeenEntries(events)) == FirstSeen(Names(events));
  }

  lemma ListingNames(events: seq<Entry>, name: string)
    ensures name in Names(FirstSeenEntries(events)) <==> name in Bodies(events)
  {
    hide FirstSeen, Bodies;
    FirstSeenMembers(Names(events));
    BodiesKeys(events);
    assert Names(FirstSeenEntries(events)) == FirstSeen(Names(events));
  }

  lemma OneBody(e: Entry)
    ensures Bodies([e]) == map[e.name := e.body]
  {
    assert [e][..0] == [];
  }

  /** No message, no event. */
  lemma NothingHeld(r: Readers, ms: seq<Message>, skills: map<string, string>, searches: set<string>)
    ensures Bodies(InstructionEvents(r, ms[..0])) == map[]
    ensures Bodies(SkillEvents(r, Results(ms[..0]), skills)) == map[]
    ensures Bodies(ToolEvents(r, Results(ms[..0]), searches)) == map[]
  {
  }

  /* -- instructions -- */

  /** The message is an instruction block of the source. */
  predicate Instructs(r: Readers, m: Message, source: string) {
    && m.role == User && INSTRUCTIONS_HEADING <= TrimSpace(m.content)
    && r.instruction(m.content).body != "" && r.instruction(m.content).name == source
  }

  /** Message `k` is the last of `n` to instruct for the source. */
  predicate LastInstruction(r: Readers, ms: seq<Message>, source: string, k: nat, n: nat) {
    && k < n <= |ms| && Instructs(r, ms[k], source)
    && forall j :: k < j < n ==> !Instructs(r, ms[j], source)
  }

  lemma OneInstruction(r: Readers, m: Message, source: string)
    ensures source in Bodies(InstructionEvent(r, m)) <==> Instructs(r, m, source)
    ensures Instructs(r, m, source) ==> Bodies(InstructionEvent(r, m))[source] == r.instruction(m.content).body
  {
    hide TrimSpace;
    OneBody(r.instruction(m.content));
  }

  lemma InstructionStep(r: Readers, ms: seq<Message>, i: nat)
    requires i < |ms|
    ensures Bodies(InstructionEvents(r, ms[..i + 1])) == Bodies(InstructionEvents(r, ms[..i])) + Bodies(InstructionEvent(r, ms[i]))
  {
    hide Bodies, InstructionEvent;
    assert ms[..i + 1][..i] == ms[..i];
    BodiesConcat(InstructionEvents(r, ms[..i]), InstructionEvent(r, ms[i]));
  }

  /** The last instruction block for the source among `n` messages, if any, has its body. */
  lemma {:induction false} InstructionBodies(r: Readers, ms: seq<Message>, source: string, n: nat) returns (k: int)
    requires n <= |ms|
    ensures var bodies := Bodies(InstructionEvents(r, ms[..n]));
      if k < 0 then source !in bodies && forall j :: 0 <= j < n ==> !Instructs(r, ms[j], source)
      else LastInstruction(r, ms, source, k, n) && source in bodies && bodies[source] == r.instruction(ms[k].content).body
  {
    hide InstructionEvent, Instructs, Bodies, InstructionEvents;
    k := n - 1;
    if n == 0 {
      NothingHeld(r, ms, map[], {});
    } else {
      InstructionStep(r, ms, k);
      OneInstruction(r, ms[k], source);
      if !Instructs(r, ms[k], source) {
        k := InstructionBodies(r, ms, source, n - 1);
      }
    }
  }

  /** A source is listed with the body of its last instruction block, and no other is. */
  lemma InstructionIsListed(r: Readers, ms: seq<Message>, source: string, body: string)
    ensures Entry(source, body) in Instructions(r, ms)
      <==> exists k: nat :: LastInstruction(r, ms, source, k, |ms|) && r.instruction(ms[k].content).body == body
  {
    hide InstructionEvents, FirstSeenEntries, Bodies, Instructs;
    assert ms[..|ms|] == ms;
    var k := InstructionBodies(r, ms, source, |ms|);
    FirstSeenLists(InstructionEvents(r, ms), source, body);
  }

  /* -- skills -- */

  /** The message is a result, with something in it, of a load of the skill. */
  predicate LoadsSkill(m: Message, ids: map<string, string>, name: string) {
    && m.role == Tool && m.toolCallId != "" && m.toolCallId in ids && TrimSpace(m.content) != ""
    && name == if ids[m.toolCallId] == "" then UNNAMED else ids[m.toolCallId]
  }

  /** Result `k` is the last of `n` messages to load the skill. */
  predicate LastLoad(ms: seq<Message>, ids: map<string, string>, name: string, k: nat, n: nat) {
    && k < n <= |ms| && LoadsSkill(ms[k], ids, name)
    && forall j :: k < j < n ==> !LoadsSkill(ms[j], ids, name)
  }

  lemma OneSkill(r: Readers, m: Message, ids: map<string, string>, name: string)
    ensures IsResult(m) && name in Bodies(SkillEvent(r, m, ids)) <==> LoadsSkill(m, ids, name)
    ensures LoadsSkill(m, ids, name) ==> Bodies(SkillEvent(r, m, ids))[name] == r.capBody(TrimSpace(m.content))
  {
    hide TrimSpace;
    OneBody(Entry(name, r.capBody(TrimSpace(m.content))));
    if SkillEvent(r, m, ids) != [] {
      OneBody(SkillEvent(r, m, ids)[0]);
    }
  }

  lemma SkillStep(r: Readers, ms: seq<Message>, i: nat, ids: map<string, string>)
    requires i < |ms|
    ensures Bodies(SkillEvents(r, Results(ms[..i + 1]), ids)) == Bodies(SkillEvents(r, Results(ms[..i]), ids)) +
      if IsResult(ms[i]) then Bodies(SkillEvent(r, ms[i], ids)) else map[]
  {
    hide Bodies, SkillEvents, SkillEvent, Results, IsResult;
    SkillEventsStep(r, ms, i, ids);
    BodiesConcat(SkillEvents(r, Results(ms[..i]), ids), SkillEvent(r, ms[i], ids));
  }

  lemma {:induction false} SkillBodies(r: Readers, ms: seq<Message>, ids: map<string, string>, name: string, n: nat)
    returns (k: int)
    requires n <= |ms|
    ensures var bodies := Bodies(SkillEvents(r, Results(ms[..n]), ids));
      if k < 0 then name !in bodies && forall j :: 0 <= j < n ==> !LoadsSkill(ms[j], ids, name)
      else LastLoad(ms, ids, name, k, n) && name in bodies && bodies[name] == r.capBody(TrimSpace(ms[k].content))
  {
    hide SkillEvent, LoadsSkill, TrimSpace, Bodies, SkillEvents, Results, IsResult;
    k := n - 1;
    if n == 0 {
      NothingHeld(r, ms, ids, {});
    } else {
      SkillStep(r, ms, k, ids);
      OneSkill(r, ms[k], ids, name);
      if !LoadsSkill(ms[k], ids, name) {
        k := SkillBodies(r, ms, ids, name, n - 1);
      }
    }
  }

  /** A skill is listed with the capped body of the last result that loaded it, and no
      other is. */
  lemma SkillIsListed(r: Readers, ms: seq<Message>, name: string, body: string)
    ensures Entry(name, body) in Skills(r, ms)
      <==> exists k: nat :: LastLoad(ms, SkillById(r, AllCalls(ms)), name, k, |ms|) && r.capBody(TrimSpace(ms[k].content)) == body
  {
    hide SkillEvents, SkillById, AllCalls, Results, FirstSeenEntries, Bodies, LoadsSkill, TrimSpace;
    var ids := SkillById(r, AllCalls(ms));
    assert ms[..|ms|] == ms;
    var k := SkillBodies(r, ms, ids, name, |ms|);
    FirstSeenLists(SkillEvents(r, Results(ms), ids), name, body);
  }

  /* -- tools -- */

  /** Line `t` is the last of a listing to name the tool. */
  predicate LastLine(es: seq<Entry>, name: string, t: nat) {
    t < |es| && es[t].name == name && forall u :: t < u < |es| ==> es[u].name != name
  }

  lemma {:induction false} LastLineIs(es: seq<Entry>, name: string) returns (t: int)
    ensures name in Bodies(es) <==> t >= 0
    ensures t >= 0 ==> LastLine(es, name, t) && Bodies(es)[name] == es[t].body
  {
    t := |es| - 1;
    if es != [] && es[t].name != name {
      t := LastLineIs(es[..|es| - 1], name);
    }
  }

  lemma BodiesSnoc(es: seq<Entry>, e: Entry)
    ensures Bodies(es + [e]) == Bodies(es)[e.name := e.body]
  {
    Snoc(es, e);
  }

  lemma FilterStep(es: seq<Entry>, drop: set<string>)
    requires es != []
    ensures var n := |es| - 1;
      FilterEntries(es, drop) == if es[n].name in drop then FilterEntries(es[..n], drop) else FilterEntries(es[..n], drop) + [es[n]]
    ensures es == es[..|es| - 1] + [es[|es| - 1]]
  {
    var kept := FilterEntries(es[..|es| - 1], drop);
    assert kept + [] == kept;
  }

  /** Dropping the entries without a name changes no other body. */
  lemma {:induction false} NamedStay(es: seq<Entry>, name: string)
    ensures name in Bodies(FilterEntries(es, {""})) <==> name != "" && name in Bodies(es)
    ensures name != "" && name in Bodies(es) ==> Bodies(FilterEntries(es, {""}))[name] == Bodies(es)[name]
  {
    hide Bodies, FilterEntries;
    if es == [] {
      NothingNamed();
    } else {
      var init, last := es[..|es| - 1], es[|es| - 1];
      NamedStay(init, name);
      FilterStep(es, {""});
      BodiesSnoc(init, last);
      BodiesSnoc(FilterEntries(init, {""}), last);
    }
  }

  lemma NothingNamed()
    ensures Bodies([]) == map[] && FilterEntries([], {""}) == []
  {
  }

  /** The message is a result of a tool search and lists the tool. */
  predicate Lists(r: Readers, m: Message, ids: set<string>, name: string) {
    && m.role == Tool && m.toolCallId != "" && m.toolCallId in ids
    && name != "" && name in Names(r.toolEntries(m.content))
  }

  /** Message `k` is the last of `n` to list the tool. */
  predicate LastListing(r: Readers, ms: seq<Message>, ids: set<string>, name: string, k: nat, n: nat) {
    && k < n <= |ms| && Lists(r, ms[k], ids, name)
    && forall j :: k < j < n ==> !Lists(r, ms[j], ids, name)
  }

  lemma OneListing(r: Readers, m: Message, ids: set<string>, name: string)
    ensures IsResult(m) && name in Bodies(ToolEvent(r, m, ids)) <==> Lists(r, m, ids, name)
    ensures Lists(r, m, ids, name) ==>
      name in Bodies(r.toolEntries(m.content)) && Bodies(ToolEvent(r, m, ids))[name] == Bodies(r.toolEntries(m.content))[name]
  {
    hide FilterEntries, Bodies;
    BodiesKeys(r.toolEntries(m.content));
    NamedStay(r.toolEntries(m.content), name);
    NothingNamed();
  }

  lemma ToolStep(r: Readers, ms: seq<Message>, i: nat, ids: set<string>)
    requires i < |ms|
    ensures Bodies(ToolEvents(r, Results(ms[..i + 1]), ids)) == Bodies(ToolEvents(r, Results(ms[..i]), ids)) +
      if IsResult(ms[i]) then Bodies(ToolEvent(r, ms[i], ids)) else map[]
  {
    hide Bodies, ToolEvents, ToolEvent, Results, IsResult;
    ToolEventsStep(r, ms, i, ids);
    BodiesConcat(ToolEvents(r, Results(ms[..i]), ids), ToolEvent(r, ms[i], ids));
  }

  lemma {:induction false} ToolBodies(r: Readers, ms: seq<Message>, ids: set<string>, name: string, n: nat) returns (k: int)
    requires n <= |ms|
    ensures var bodies := Bodies(ToolEvents(r, Results(ms[..n]), ids));
      if k < 0 then name !in bodies && forall j :: 0 <= j < n ==> !Lists(r, ms[j], ids, name)
      else
        && LastListing(r, ms, ids, name, k, n) && name in bodies && name in Bodies(r.toolEntries(ms[k].content))
        && bodies[name] == Bodies(r.toolEntries(ms[k].content))[name]
  {
    hide ToolEvent, Lists, Bodies, ToolEvents, Results, IsResult;
    k := n - 1;
    if n == 0 {
      NothingHeld(r, ms, map[], ids);
    } else {
      ToolStep(r, ms, k, ids);
      OneListing(r, ms[k], ids, name);
      if !Lists(r, ms[k], ids, name) {
        k := ToolBodies(r, ms, ids, name, n - 1);
      }
    }
  }

  /** Line `t` of result `k` is the last schema the messages hold for the tool. */
  predicate LastSchema(r: Readers, ms: seq<Message>, ids: set<string>, name: string, k: nat, t: nat) {
    LastListing(r, ms, ids, name, k, |ms|) && LastLine(r.toolEntries(ms[k].content), name, t)
  }

  /** A tool is listed with its last schema, and no other is. */
  lemma ToolIsListed(r: Readers, ms: seq<Message>, name: string, schema: string)
    ensures Entry(name, schema) in ToolSchemas(r, ms)
      <==> exists k: nat, t: nat :: LastSchema(r, ms, SearchIds(AllCalls(ms)), name, k, t)
                                    && r.toolEntries(ms[k].content)[t].body == schema
  {
    hide ToolEvents, SearchIds, AllCalls, Results, FirstSeenEntries, Bodies, Lists;
    var ids := SearchIds(AllCalls(ms));
    assert ms[..|ms|] == ms;
    var k := ToolBodies(r, ms, ids, name, |ms|);
    FirstSeenLists(ToolEvents(r, Results(ms), ids), name, schema);
    if k >= 0 {
      var t := LastLineIs(r.toolEntries(ms[k].content), name);
      assert LastSchema(r, ms, ids, name, k, t);
    }
  }

  /* -- edits -- */

  /** Result `m` is that of an edit of the path. */
  predicate NotesEdit(m: Message, ids: map<string, string>, path: string) {
    m.role == Tool && m.toolCallId != "" && m.toolCallId in ids && ids[m.toolCallId] == path
  }

  /** Result `k` is the last of `n` messages to be that of an edit of the path. */
  predicate LastNote(ms: seq<Message>, ids: map<string, string>, path: string, k: nat, n: nat) {
    && k < n <= |ms| && NotesEdit(ms[k], ids, path)
    && forall j :: k < j < n ==> !NotesEdit(ms[j], ids, path)
  }

  lemma NotesStep(r: Readers, ms: seq<Message>, i: nat, ids: map<string, string>)
    requires i < |ms|
    ensures var before, after := Notes(r, Results(ms[..i]), ids), Notes(r, Results(ms[..i + 1]), ids);
      after == if IsResult(ms[i]) && ms[i].toolCallId in ids
               then before[ids[ms[i].toolCallId] := r.editNote(ms[i].content)] else before
  {
    hide Results;
    ResultsStep(ms, i);
    Snoc(Results(ms[..i]), ms[i]);
  }

  lemma {:induction false} NotesAre(r: Readers, ms: seq<Message>, ids: map<string, string>, path: string, n: nat) returns (k: int)
    requires n <= |ms|
    ensures var notes := Notes(r, Results(ms[..n]), ids);
      if k < 0 then path !in notes && forall j :: 0 <= j < n ==> !NotesEdit(ms[j], ids, path)
      else LastNote(ms, ids, path, k, n) && path in notes && notes[path] == r.editNote(ms[k].content)
  {
    k := n - 1;
    if n > 0 {
      hide Notes, Results;
      NotesStep(r, ms, k, ids);
      if !NotesEdit(ms[k], ids, path) {
        k := NotesAre(r, ms, ids, path, n - 1);
      }
    }
  }

  /** The note of a path: that of the last result of its edits, and empty when there is none. */
  ghost predicate Noted(r: Readers, ms: seq<Message>, path: string, note: string) {
    var ids := PathById(r, AllCalls(ms));
    || (note == "" && forall k :: 0 <= k < |ms| ==> !NotesEdit(ms[k], ids, path))
    || exists k: nat :: LastNote(ms, ids, path, k, |ms|) && r.editNote(ms[k].content) == note
  }

  lemma {:induction false} PathSequenceConcat(r: Readers, x: seq<ToolCall>, y: seq<ToolCall>)
    ensures PathSequence(r, x + y) == PathSequence(r, x) + PathSequence(r, y)
  {
    hide EditPath;
    if y == [] {
      assert x + y == x;
    } else {
      assert (x + y)[..|x + y| - 1] == x + y[..|y| - 1];
      PathSequenceConcat(r, x, y[..|y| - 1]);
    }
  }

  /** The paths edited after call `k`. */
  function LaterPaths(r: Readers, cs: seq<ToolCall>, k: int): set<string> {
    set t | 0 <= t < |cs| && k < t && EditsPath(r, cs[t]) :: r.editPath(cs[t].arguments)
  }

  /** Every path the calls edit. */
  function EditedPaths(r: Readers, cs: seq<ToolCall>): set<string> {
    LaterPaths(r, cs, -1)
  }

  lemma {:induction false} PathsEdited(r: Readers, cs: seq<ToolCall>)
    ensures NameSet(PathSequence(r, cs)) == EditedPaths(r, cs)
  {
    if cs != [] {
      var n := |cs| - 1;
      PathsEdited(r, cs[..n]);
      assert EditedPaths(r, cs) == EditedPaths(r, cs[..n]) + if EditsPath(r, cs[n]) then {r.editPath(cs[n].arguments)} else {} by {
        assert forall t :: 0 <= t < n ==> cs[..n][t] == cs[t];
      }
      assert NameSet(PathSequence(r, cs)) == NameSet(PathSequence(r, cs[..n])) + if EditsPath(r, cs[n]) then {r.editPath(cs[n].arguments)} else {};
    }
  }

  lemma LaterSplit(r: Readers, cs: seq<ToolCall>, k: nat)
    requires k < |cs|
    ensures LaterPaths(r, cs, k) == EditedPaths(r, cs[k + 1..])
  {
    var rest := cs[k + 1..];
    assert forall t :: 0 <= t < |rest| ==> rest[t] == cs[k + 1 + t];
    forall t | k < t < |cs| && EditsPath(r, cs[t]) ensures r.editPath(cs[t].arguments) in EditedPaths(r, rest) {
      assert rest[t - k - 1] == cs[t];
    }
  }

  /** An edited path has its last edit. */
  lemma {:induction false} EditedHasLast(r: Readers, cs: seq<ToolCall>, path: string) returns (k: nat)
    requires path in EditedPaths(r, cs)
    ensures LastEdit(r, cs, path, k)
  {
    k := |cs| - 1;
    if !(EditsPath(r, cs[k]) && r.editPath(cs[k].arguments) == path) {
      assert forall t :: 0 <= t < |cs| - 1 ==> cs[..|cs| - 1][t] == cs[t];
      k := EditedHasLast(r, cs[..|cs| - 1], path);
    }
  }

  /** An edited path stands in the order before exactly the paths edited after its last edit. */
  lemma EditStands(r: Readers, cs: seq<ToolCall>, path: string, k: nat)
    requires LastEdit(r, cs, path, k)
    ensures var order := LastSeen(PathSequence(r, cs));
      var i := |order| - 1 - |LaterPaths(r, cs, k)|; 0 <= i && order[i] == path
  {
    hide LastSeen, PathSequence, LaterPaths, EditPath;
    var before, rest := cs[..k], cs[k + 1..];
    assert cs == before + [cs[k]] + rest;
    PathSequenceConcat(r, before + [cs[k]], rest);
    PathSequenceConcat(r, before, [cs[k]]);
    OneEdit(r, cs[k]);
    LaterSplit(r, cs, k);
    PathsEdited(r, rest);
    NotLater(r, cs, path, k);
    LastSeenAt(PathSequence(r, before), path, PathSequence(r, rest));
  }

  lemma OneEdit(r: Readers, c: ToolCall)
    requires EditsPath(r, c)
    ensures PathSequence(r, [c]) == [r.editPath(c.arguments)]
  {
    assert [c][..0] == [] && PathSequence(r, []) == [];
  }

  lemma NotLater(r: Readers, cs: seq<ToolCall>, path: string, k: nat)
    requires LastEdit(r, cs, path, k)
    ensures path !in LaterPaths(r, cs, k)
  {
  }

  /** An edited path is listed, and nothing else is. */
  lemma EditIsListed(r: Readers, ms: seq<Message>, path: string, note: string)
    ensures Entry(path, note) in EditEntries(r, ms) <==> path in EditedPaths(r, AllCalls(ms)) && Noted(r, ms, path, note)
  {
    hide LastSeen, PathSequence, PathById, Notes, Results, AllCalls, EditedPaths, NotesEdit;
    var cs := AllCalls(ms);
    var ids := PathById(r, cs);
    assert ms[..|ms|] == ms;
    var k := NotesAre(r, ms, ids, path, |ms|);
    PathsEdited(r, cs);
    LastSeenMembers(PathSequence(r, cs));
    assert path in PathSequence(r, cs) <==> path in NameSet(PathSequence(r, cs));
    ListedBody(LastSeen(PathSequence(r, cs)), Notes(r, Results(ms), ids), path, note);
  }

  /** A path is among the recent edits exactly when fewer than twenty others were edited after it. */
  lemma RecentIffFewLater(r: Readers, ms: seq<Message>, path: string, note: string, k: nat)
    requires LastEdit(r, AllCalls(ms), path, k)
    ensures Entry(path, note) in CapRecentEdits(EditEntries(r, ms))
      <==> Noted(r, ms, path, note) && |LaterPaths(r, AllCalls(ms), k)| < MAX_RECENT_EDITS
  {
    hide LastSeen, PathSequence, PathById, Notes, Results, AllCalls, LaterPaths, Noted;
    var cs, es := AllCalls(ms), EditEntries(r, ms);
    var capped := CapRecentEdits(es);
    EditStands(r, cs, path, k);
    EditIsListed(r, ms, path, note);
    LastEditIsEdited(r, cs, path, k);
    var i := |es| - 1 - |LaterPaths(r, cs, k)|;
    LastSeenMembers(PathSequence(r, cs));
    assert forall j :: 0 <= j < |es| && j != i ==> es[j].name != path;
    assert |capped| <= |es| && capped == es[|es| - |capped|..];
    if |LaterPaths(r, cs, k)| < MAX_RECENT_EDITS {
      assert capped[i - (|es| - |capped|)] == es[i];
    }
  }

  lemma LastEditIsEdited(r: Readers, cs: seq<ToolCall>, path: string, k: nat)
    requires LastEdit(r, cs, path, k)
    ensures path in EditedPaths(r, cs)
  {
  }
}
