/** The state block's own encoding: the JSON of the state, in one line, with empty fields
    left out. */
module StateCodec {
  import opened Text
  import opened Entries
  import opened Preserve
  import J = Json

  const PLAN := "plan"
  const TASK := "task"
  const RECENT_EDITS := "recent_edits"
  const TOOLS := "tools"
  const SKILLS := "skills"
  const PROJECT_INSTRUCTIONS := "project_instructions"
  const OBJECTIVE := "objective"
  const STATUS := "status"
  const PATH := "path"
  const NOTE := "note"
  const NAME := "name"
  const SOURCE := "source"
  const BODY := "body"

  /* ---- encoding ---- */

  /** A field, unless it is left out. */
  function Optional(present: bool, name: string, value: J.Value, tail: J.Fields): J.Fields {
    if present then J.Fields(name, value, tail) else tail
  }

  /** The keys of one list of entries, and whether an empty body is left out. */
  datatype Keys = Keys(name: string, body: string, omitEmpty: bool)

  const EDIT_KEYS := Keys(PATH, NOTE, true)
  const TOOL_KEYS := Keys(NAME, BODY, false)
  const INSTRUCTION_KEYS := Keys(SOURCE, BODY, false)

  function EntryValue(k: Keys, e: Entry): J.Value {
    J.Object(J.Fields(k.name, J.Text(e.name), Optional(!k.omitEmpty || e.body != "", k.body, J.Text(e.body), J.NoFields)))
  }

  function EntryItems(k: Keys, es: seq<Entry>): J.Values {
    if es == [] then J.NoValues else J.Values(EntryValue(k, es[0]), EntryItems(k, es[1..]))
  }

  function TaskValue(t: Task): J.Value {
    J.Object(J.Fields(OBJECTIVE, J.Text(t.objective), Optional(t.status != "", STATUS, J.Text(t.status), J.NoFields)))
  }

  function ListField(name: string, k: Keys, es: seq<Entry>, tail: J.Fields): J.Fields {
    Optional(es != [], name, J.List(EntryItems(k, es)), tail)
  }

  function ListFields(s: State): J.Fields {
    ListField(RECENT_EDITS, EDIT_KEYS, s.edits,
    ListField(TOOLS, TOOL_KEYS, s.tools,
    ListField(SKILLS, TOOL_KEYS, s.skills,
    ListField(PROJECT_INSTRUCTIONS, INSTRUCTION_KEYS, s.instructions, J.NoFields))))
  }

  function TaskField(task: Option<Task>): J.Value {
    if task.Some? then TaskValue(task.value) else J.Null
  }

  function StateFields(s: State): J.Fields {
    Optional(s.plan != "", PLAN, J.Text(s.plan), Optional(s.task.Some?, TASK, TaskField(s.task), ListFields(s)))
  }

  function EncodeState(s: State): string {
    J.Encode(J.Object(StateFields(s)))
  }

  /* ---- decoding ---- */

  /** The values given for a field, in order: keys match in any case. */
  function Given(fs: J.Fields, name: string): seq<J.Value> {
    if fs.NoFields? then []
    else (if ToLower(fs.name) == name then [fs.value] else []) + Given(fs.tail, name)
  }

  /** A text field: the last text given, a null being passed over, and nothing for any other
      type. */
  function ReadText(vs: seq<J.Value>): Option<string> {
    if vs == [] then Some("")
    else
      var before := ReadText(vs[..|vs| - 1]);
      if before.None? then None
      else
        match vs[|vs| - 1]
        case Text(s) => Some(s)
        case Null => before
        case _ => None
  }

  function ReadEntry(k: Keys, v: J.Value): Option<Entry> {
    match v
    case Object(fs) =>
      var name, body := ReadText(Given(fs, k.name)), ReadText(Given(fs, k.body));
      if name.Some? && body.Some? then Some(Entry(name.value, body.value)) else None
    case Null => Some(Entry("", ""))
    case _ => None
  }

  function ReadItems(k: Keys, vs: J.Values): Option<seq<Entry>> {
    if vs.NoValues? then Some([])
    else
      var first, rest := ReadEntry(k, vs.head), ReadItems(k, vs.tail);
      if first.Some? && rest.Some? then Some([first.value] + rest.value) else None
  }

  function ReadEntries(k: Keys, vs: seq<J.Value>): Option<seq<Entry>> {
    if vs == [] then Some([])
    else if ReadEntries(k, vs[..|vs| - 1]).None? then None
    else
      match vs[|vs| - 1]
      case List(items) => ReadItems(k, items)
      case Null => Some([])
      case _ => None
  }

  function ReadTask(vs: seq<J.Value>): Option<Option<Task>> {
    if vs == [] then Some(None)
    else if ReadTask(vs[..|vs| - 1]).None? then None
    else
      match vs[|vs| - 1]
      case Object(fs) =>
        var objective, status := ReadText(Given(fs, OBJECTIVE)), ReadText(Given(fs, STATUS));
        if objective.Some? && status.Some? then Some(Some(Task(objective.value, status.value))) else None
      case Null => Some(None)
      case _ => None
  }

  /** A text field is refused exactly when one of its values is neither a text nor a null, and
      is otherwise its last text. */
  lemma {:induction false} ReadTextIs(vs: seq<J.Value>)
    ensures ReadText(vs).None? <==> exists k :: 0 <= k < |vs| && !vs[k].Text? && !vs[k].Null?
    ensures forall s :: ReadText(vs) == Some(s) ==>
      || (s == "" && forall k :: 0 <= k < |vs| ==> vs[k].Null?)
      || exists k :: 0 <= k < |vs| && vs[k] == J.Text(s) && forall j :: k < j < |vs| ==> vs[j].Null?
  {
    if vs != [] {
      var n := |vs| - 1;
      ReadTextIs(vs[..n]);
      assert forall k :: 0 <= k < n ==> vs[..n][k] == vs[k];
    }
  }

  /** A list field is refused exactly when one of its values is neither a null nor a list of
      entries. */
  lemma {:induction false} ReadEntriesRefuses(k: Keys, vs: seq<J.Value>)
    ensures ReadEntries(k, vs).None? <==>
      exists i :: 0 <= i < |vs| && !vs[i].Null? && !(vs[i].List? && ReadItems(k, vs[i].items).Some?)
  {
    hide ReadItems;
    if vs != [] {
      var n := |vs| - 1;
      ReadEntriesRefuses(k, vs[..n]);
      assert forall i :: 0 <= i < n ==> vs[..n][i] == vs[i];
    }
  }

  /** Likewise for the task, with an object of two texts. */
  lemma {:induction false} ReadTaskRefuses(vs: seq<J.Value>)
    ensures ReadTask(vs).None? <==>
      exists i :: 0 <= i < |vs| && !vs[i].Null?
                  && !(vs[i].Object? && ReadText(Given(vs[i].fields, OBJECTIVE)).Some? && ReadText(Given(vs[i].fields, STATUS)).Some?)
  {
    hide ReadText, Given, OBJECTIVE, STATUS;
    if vs != [] {
      var n := |vs| - 1;
      ReadTaskRefuses(vs[..n]);
      assert forall i :: 0 <= i < n ==> vs[..n][i] == vs[i];
    }
  }

  /** The state the fields give; nothing when one has another type. Other keys are ignored. */
  function ReadState(fs: J.Fields): Option<State> {
    var plan, task := ReadText(Given(fs, PLAN)), ReadTask(Given(fs, TASK));
    var edits, tools := ReadEntries(EDIT_KEYS, Given(fs, RECENT_EDITS)), ReadEntries(TOOL_KEYS, Given(fs, TOOLS));
    var skills := ReadEntries(TOOL_KEYS, Given(fs, SKILLS));
    var instructions := ReadEntries(INSTRUCTION_KEYS, Given(fs, PROJECT_INSTRUCTIONS));
    if plan.Some? && task.Some? && edits.Some? && tools.Some? && skills.Some? && instructions.Some?
    then Some(State(plan.value, task.value, edits.value, tools.value, skills.value, instructions.value))
    else None
  }

  /** The state a text holds: one JSON object and nothing else but white space, with any
      spacing, order and further keys. */
  function DecodeState(text: string): (s: Option<State>)
    ensures s.Some? ==> J.WholeObject(text)
  {
    var v := J.Parse(text);
    if v.Some? && v.value.0.Object? && J.Skip(v.value.1) == "" then ReadState(v.value.0.fields) else None
  }

  const JSON := Codec(EncodeState, DecodeState)

  /* ---- the round trip ---- */

  lemma {:induction false} KeyIsLower(name: string)
    requires J.KeyName(name)
    ensures ToLower(name) == name
  {
  }

  lemma GivenOptional(present: bool, name: string, value: J.Value, tail: J.Fields, wanted: string)
    requires J.KeyName(name)
    ensures Given(Optional(present, name, value, tail), wanted)
         == if present && name == wanted then [value] + Given(tail, wanted) else Given(tail, wanted)
  {
    KeyIsLower(name);
    assert [] + Given(tail, wanted) == Given(tail, wanted);
  }

  lemma OneText(s: string)
    ensures ReadText([J.Text(s)]) == Some(s) && ReadText([]) == Some("")
  {
    assert [J.Text(s)][..0] == [];
  }

  predicate KeysNamed(k: Keys) {
    J.KeyName(k.name) && J.KeyName(k.body) && k.name != k.body
  }

  /** A name, and a second text left out when it is empty. */
  lemma ReadsPair(name: string, body: string, present: bool, s: string, u: string)
    requires J.KeyName(name) && J.KeyName(body) && name != body && (!present ==> u == "")
    ensures var fs := J.Fields(name, J.Text(s), Optional(present, body, J.Text(u), J.NoFields));
      ReadText(Given(fs, name)) == Some(s) && ReadText(Given(fs, body)) == Some(u)
  {
    hide ReadText, ToLower, Given;
    var tail := Optional(present, body, J.Text(u), J.NoFields);
    NothingGiven(name);
    NothingGiven(body);
    GivenOptional(present, body, J.Text(u), J.NoFields, name);
    GivenOptional(present, body, J.Text(u), J.NoFields, body);
    GivenOptional(true, name, J.Text(s), tail, name);
    GivenOptional(true, name, J.Text(s), tail, body);
    assert Optional(true, name, J.Text(s), tail) == J.Fields(name, J.Text(s), tail);
    assert [J.Text(s)] + [] == [J.Text(s)] && [J.Text(u)] + [] == [J.Text(u)];
    OneText(s);
    OneText(u);
  }

  lemma NothingGiven(name: string)
    ensures Given(J.NoFields, name) == []
  {
  }

  lemma ReadsEntry(k: Keys, e: Entry)
    requires KeysNamed(k)
    ensures ReadEntry(k, EntryValue(k, e)) == Some(e)
  {
    hide Given, ReadText, Optional, J.KeyName;
    ReadsPair(k.name, k.body, !k.omitEmpty || e.body != "", e.name, e.body);
  }

  lemma {:induction false} ReadsItems(k: Keys, es: seq<Entry>)
    requires KeysNamed(k)
    ensures ReadItems(k, EntryItems(k, es)) == Some(es)
  {
    hide EntryValue, ReadEntry, KeysNamed;
    if es != [] {
      ReadsEntry(k, es[0]);
      ReadsItems(k, es[1..]);
      assert [es[0]] + es[1..] == es;
    }
  }

  lemma ReadsTask(t: Task)
    ensures ReadTask([TaskValue(t)]) == Some(Some(t))
  {
    hide Given, ReadText, Optional, J.KeyName;
    EntryKeysNamed();
    ReadsPair(OBJECTIVE, STATUS, t.status != "", t.objective, t.status);
    assert [TaskValue(t)][..0] == [];
  }

  lemma ReadsNoTask()
    ensures ReadTask([]) == Some(None)
  {
  }

  lemma ReadsEntries(k: Keys, es: seq<Entry>)
    requires KeysNamed(k)
    ensures ReadEntries(k, if es == [] then [] else [ListValue(k, es)]) == Some(es)
  {
    hide EntryItems, ReadItems, KeysNamed;
    ReadsItems(k, es);
    assert [ListValue(k, es)][..0] == [];
  }

  lemma KeysDiffer()
    ensures OBJECTIVE != STATUS && PATH != NOTE && NAME != BODY && SOURCE != BODY
    ensures PLAN != TASK && PLAN != RECENT_EDITS && PLAN != TOOLS && PLAN != SKILLS && PLAN != PROJECT_INSTRUCTIONS
    ensures TASK != RECENT_EDITS && TASK != TOOLS && TASK != SKILLS && TASK != PROJECT_INSTRUCTIONS
    ensures RECENT_EDITS != TOOLS && RECENT_EDITS != SKILLS && RECENT_EDITS != PROJECT_INSTRUCTIONS
    ensures TOOLS != SKILLS && TOOLS != PROJECT_INSTRUCTIONS && SKILLS != PROJECT_INSTRUCTIONS
  {
    assert PLAN[0] == 'p' && TASK[1] == 'a' && TOOLS[0] == 't' && TOOLS[1] == 'o' && RECENT_EDITS[0] == 'r' && SKILLS[0] == 's';
    assert PROJECT_INSTRUCTIONS[0] == 'p' && PROJECT_INSTRUCTIONS[1] == 'r' && PLAN[1] == 'l';
  }

  lemma EntryKeyNames()
    ensures J.KeyName(OBJECTIVE) && J.KeyName(STATUS) && J.KeyName(PATH) && J.KeyName(NOTE)
    ensures J.KeyName(NAME) && J.KeyName(SOURCE) && J.KeyName(BODY)
  {
  }

  lemma FieldKeyNames()
    ensures J.KeyName(PLAN) && J.KeyName(TASK) && J.KeyName(TOOLS) && J.KeyName(SKILLS) && J.KeyName(RECENT_EDITS)
  {
  }

  lemma LongKeyName()
    ensures J.KeyName(PROJECT_INSTRUCTIONS)
  {
  }

  lemma EntryKeysNamed()
    ensures KeysNamed(EDIT_KEYS) && KeysNamed(TOOL_KEYS) && KeysNamed(INSTRUCTION_KEYS)
    ensures J.KeyName(OBJECTIVE) && J.KeyName(STATUS) && OBJECTIVE != STATUS
  {
    hide J.KeyName, OBJECTIVE, STATUS, PATH, NOTE, NAME, SOURCE, BODY;
    EntryKeyNames();
    KeysDiffer();
  }

  function ListValue(k: Keys, es: seq<Entry>): J.Value {
    J.List(EntryItems(k, es))
  }

  /** What a key finds among the lists of a state, and among all its fields. */
  function ListOf(s: State, name: string): seq<J.Value> {
    if name == RECENT_EDITS && s.edits != [] then [ListValue(EDIT_KEYS, s.edits)]
    else if name == TOOLS && s.tools != [] then [ListValue(TOOL_KEYS, s.tools)]
    else if name == SKILLS && s.skills != [] then [ListValue(TOOL_KEYS, s.skills)]
    else if name == PROJECT_INSTRUCTIONS && s.instructions != [] then [ListValue(INSTRUCTION_KEYS, s.instructions)]
    else []
  }

  function FieldOf(s: State, name: string): seq<J.Value> {
    if name == PLAN && s.plan != "" then [J.Text(s.plan)]
    else if name == TASK && s.task.Some? then [TaskValue(s.task.value)]
    else ListOf(s, name)
  }

  lemma GivenList(name: string, k: Keys, es: seq<Entry>, tail: J.Fields, wanted: string)
    requires J.KeyName(name)
    ensures name != wanted ==> Given(ListField(name, k, es, tail), wanted) == Given(tail, wanted)
    ensures name == wanted && Given(tail, wanted) == [] ==>
      Given(ListField(name, k, es, tail), wanted) == if es == [] then [] else [ListValue(k, es)]
  {
    hide Given, Optional, EntryItems, J.KeyName;
    GivenOptional(es != [], name, ListValue(k, es), tail, wanted);
  }

  lemma ReadsList(s: State, name: string)
    ensures Given(ListFields(s), name) == ListOf(s, name)
  {
    hide Given, ListField, ListValue, J.KeyName,
      PLAN, TASK, RECENT_EDITS, TOOLS, SKILLS, PROJECT_INSTRUCTIONS, EDIT_KEYS, TOOL_KEYS, INSTRUCTION_KEYS;
    KeysDiffer();
    FieldKeyNames();
    LongKeyName();
    var instructions := ListField(PROJECT_INSTRUCTIONS, INSTRUCTION_KEYS, s.instructions, J.NoFields);
    var skills := ListField(SKILLS, TOOL_KEYS, s.skills, instructions);
    var tools := ListField(TOOLS, TOOL_KEYS, s.tools, skills);
    NothingGiven(name);
    GivenList(PROJECT_INSTRUCTIONS, INSTRUCTION_KEYS, s.instructions, J.NoFields, name);
    GivenList(SKILLS, TOOL_KEYS, s.skills, instructions, name);
    GivenList(TOOLS, TOOL_KEYS, s.tools, skills, name);
    GivenList(RECENT_EDITS, EDIT_KEYS, s.edits, tools, name);
  }

  lemma ReadsField(s: State, name: string)
    ensures Given(StateFields(s), name) == FieldOf(s, name)
  {
    hide Given, Optional, TaskValue, ListFields, J.KeyName,
      PLAN, TASK, RECENT_EDITS, TOOLS, SKILLS, PROJECT_INSTRUCTIONS;
    KeysDiffer();
    FieldKeyNames();
    ReadsList(s, name);
    var lists := ListFields(s);
    GivenOptional(s.task.Some?, TASK, TaskField(s.task), lists, name);
    GivenOptional(s.plan != "", PLAN, J.Text(s.plan), Optional(s.task.Some?, TASK, TaskField(s.task), lists), name);
    assert name == PLAN || name == TASK ==> ListOf(s, name) == [];
    assert [J.Text(s.plan)] + [] == [J.Text(s.plan)] && [TaskField(s.task)] + [] == [TaskField(s.task)];
  }

  /** The fields read back are the state's. */
  lemma ReadsState(s: State)
    ensures ReadState(StateFields(s)) == Some(s)
  {
    hide Given, ReadText, ReadTask, ReadEntries, StateFields, TaskValue, ListValue, KeysNamed,
      PLAN, TASK, RECENT_EDITS, TOOLS, SKILLS, PROJECT_INSTRUCTIONS, EDIT_KEYS, TOOL_KEYS, INSTRUCTION_KEYS;
    KeysDiffer();
    EntryKeysNamed();
    ReadsField(s, PLAN);
    OneText(s.plan);
    ReadsField(s, TASK);
    ReadsNoTask();
    if s.task.Some? {
      ReadsTask(s.task.value);
    }
    ReadsField(s, RECENT_EDITS);
    ReadsEntries(EDIT_KEYS, s.edits);
    ReadsField(s, TOOLS);
    ReadsEntries(TOOL_KEYS, s.tools);
    ReadsField(s, SKILLS);
    ReadsEntries(TOOL_KEYS, s.skills);
    ReadsField(s, PROJECT_INSTRUCTIONS);
    ReadsEntries(INSTRUCTION_KEYS, s.instructions);
  }

  /* -- the shape of what is written -- */

  lemma OptionalIsShaped(present: bool, name: string, value: J.Value, tail: J.Fields)
    requires J.KeyName(name) && J.Shaped(value) && J.FieldsShaped(tail)
    ensures J.FieldsShaped(Optional(present, name, value, tail))
  {
    hide J.KeyName, J.Shaped;
  }

  lemma TextIsShaped(s: string)
    ensures J.Shaped(J.Text(s)) && J.FieldsShaped(J.NoFields)
  {
  }

  lemma PairIsShaped(name: string, body: string, present: bool, s: string, u: string)
    requires J.KeyName(name) && J.KeyName(body)
    ensures J.Shaped(J.Object(J.Fields(name, J.Text(s), Optional(present, body, J.Text(u), J.NoFields))))
  {
    hide J.KeyName, Optional;
    TextIsShaped(s);
    TextIsShaped(u);
    OptionalIsShaped(present, body, J.Text(u), J.NoFields);
  }

  lemma {:induction false} ItemsAreShaped(k: Keys, es: seq<Entry>)
    requires KeysNamed(k)
    ensures J.ItemsShaped(EntryItems(k, es))
  {
    hide J.Shaped, J.KeyName;
    if es != [] {
      PairIsShaped(k.name, k.body, !k.omitEmpty || es[0].body != "", es[0].name, es[0].body);
      ItemsAreShaped(k, es[1..]);
    }
  }

  lemma ListIsShaped(name: string, k: Keys, es: seq<Entry>, tail: J.Fields)
    requires J.KeyName(name) && KeysNamed(k) && J.FieldsShaped(tail)
    ensures J.FieldsShaped(ListField(name, k, es, tail))
  {
    hide J.KeyName, KeysNamed, Optional, EntryItems, J.FieldsShaped, J.ItemsShaped;
    ItemsAreShaped(k, es);
    OptionalIsShaped(es != [], name, J.List(EntryItems(k, es)), tail);
  }

  lemma ListsAreShaped(s: State)
    ensures J.FieldsShaped(ListFields(s))
  {
    hide J.KeyName, KeysNamed, ListField, J.FieldsShaped,
      RECENT_EDITS, TOOLS, SKILLS, PROJECT_INSTRUCTIONS, EDIT_KEYS, TOOL_KEYS, INSTRUCTION_KEYS;
    EntryKeysNamed();
    FieldKeyNames();
    LongKeyName();
    TextIsShaped("");
    var instructions := ListField(PROJECT_INSTRUCTIONS, INSTRUCTION_KEYS, s.instructions, J.NoFields);
    var skills := ListField(SKILLS, TOOL_KEYS, s.skills, instructions);
    var tools := ListField(TOOLS, TOOL_KEYS, s.tools, skills);
    ListIsShaped(PROJECT_INSTRUCTIONS, INSTRUCTION_KEYS, s.instructions, J.NoFields);
    ListIsShaped(SKILLS, TOOL_KEYS, s.skills, instructions);
    ListIsShaped(TOOLS, TOOL_KEYS, s.tools, skills);
    ListIsShaped(RECENT_EDITS, EDIT_KEYS, s.edits, tools);
  }

  lemma StateIsShaped(s: State)
    ensures J.Shaped(J.Object(StateFields(s))) && J.Written(J.Object(StateFields(s)))
  {
    hide J.KeyName, Optional, ListFields, J.FieldsShaped, TaskValue, J.Written, PLAN, TASK;
    FieldKeyNames();
    TextIsShaped(s.plan);
    ListsAreShaped(s);
    var lists := ListFields(s);
    if s.task.Some? {
      TaskIsShaped(s.task.value);
      OptionalIsShaped(true, TASK, TaskField(s.task), lists);
    } else {
      LeftOut(TASK, TaskField(s.task), lists);
    }
    OptionalIsShaped(s.plan != "", PLAN, J.Text(s.plan), Optional(s.task.Some?, TASK, TaskField(s.task), lists));
    FieldsMakeObject(StateFields(s));
    J.ShapedIsWritten(J.Object(StateFields(s)));
  }

  lemma LeftOut(name: string, value: J.Value, tail: J.Fields)
    ensures Optional(false, name, value, tail) == tail
  {
  }

  lemma TaskIsShaped(t: Task)
    ensures J.Shaped(TaskValue(t))
  {
    hide J.KeyName, J.Shaped, Optional;
    EntryKeysNamed();
    PairIsShaped(OBJECTIVE, STATUS, t.status != "", t.objective, t.status);
  }

  lemma FieldsMakeObject(fs: J.Fields)
    requires J.FieldsShaped(fs)
    ensures J.Shaped(J.Object(fs))
  {
  }

  lemma DecodesEncoding(s: State)
    ensures DecodeState(EncodeState(s)) == Some(s)
  {
    hide J.Parse, J.Encode, ReadState, StateFields, J.Shaped, J.Written;
    var v := J.Object(StateFields(s));
    StateIsShaped(s);
    J.ParsesEncoding(v, "");
    assert J.Encode(v) + "" == J.Encode(v);
    ReadsState(s);
  }

  lemma EncodesOneLine(s: State)
    ensures Trimmed(EncodeState(s)) && '\n' !in EncodeState(s)
  {
    hide StateFields, J.Shaped, J.Written;
    StateIsShaped(s);
    J.EncodedHasNoNewline(J.Object(StateFields(s)));
  }

  /** Trimming the front keeps the end. */
  lemma {:induction false} TrimLeftKeepsEnd(text: string)
    requires text != "" && !IsSpace(text[|text| - 1])
    ensures TrimLeft(text) != "" && TrimLeft(text)[|TrimLeft(text)| - 1] == text[|text| - 1]
  {
    if IsSpace(text[0]) {
      TrimLeftKeepsEnd(text[1..]);
    }
  }

  lemma TrimmedSuffix(text: string, k: nat)
    requires k <= |text| && text != "" && !IsSpace(text[|text| - 1])
    ensures TrimSpace(text[k..]) == TrimLeft(text[k..])
  {
    if k < |text| {
      TrimLeftKeepsEnd(text[k..]);
    }
  }

  /** What is left of an encoding from any later byte on decodes to nothing. */
  lemma SuffixIsNoState(s: State, k: nat)
    requires 0 < k <= |EncodeState(s)|
    ensures DecodeState(TrimSpace(EncodeState(s)[k..])) == None
  {
    hide StateFields, DecodeState, J.WholeObject, J.Shaped, TrimSpace, TrimLeft, J.Written;
    var v := J.Object(StateFields(s));
    StateIsShaped(s);
    EncodesOneLine(s);
    TrimmedSuffix(EncodeState(s), k);
    J.SuffixIsNoObject(v, k);
  }

  /** The state's JSON meets every law the block asks of an encoding: it decodes to what was
      encoded, in one trimmed line, and no proper suffix decodes to the same state. */
  lemma JsonIsLawful()
    ensures LawfulCodec(JSON) && SuffixFree(JSON)
  {
    hide EncodeState, DecodeState, Trimmed, TrimSpace;
    forall s ensures JSON.decode(JSON.encode(s)) == Some(s) && Trimmed(JSON.encode(s)) && '\n' !in JSON.encode(s) {
      DecodesEncoding(s);
      EncodesOneLine(s);
    }
    forall s, k | 0 < k <= |JSON.encode(s)| ensures JSON.decode(TrimSpace(JSON.encode(s)[k..])) != Some(s) {
      SuffixIsNoState(s, k);
    }
  }

  /** The JSON of a plan alone, with a space where none is written. */
  function SpacedPlan(plan: string): string {
    ['{'] + (J.Quoted(PLAN) + ([':'] + ([' '] + (J.Quoted(plan) + ['}']))))
  }

  lemma SpacedPlanParses(plan: string)
    ensures J.Parse(SpacedPlan(plan)) == Some((J.Object(J.Fields(PLAN, J.Text(plan), J.NoFields)), ""))
  {
    hide J.Quoted, J.ReadString, J.ReadScalar, J.ParseSomeFields, PLAN;
    var v := J.Text(plan);
    var value := J.Quoted(plan) + ['}'];
    J.ParsesEncoding(v, ['}']);
    J.ParsesAfterSpace(value);
    assert ['}'] == ['}'] + "";
    J.FieldIsRead(PLAN, [' '] + value, v, ['}'], J.NoFields, "");
    var rest := J.Quoted(PLAN) + ([':'] + ([' '] + value));
    J.ReadsQuoted(PLAN, [':'] + ([' '] + value));
    J.Drops('{', rest);
  }

  lemma PlanAlone(plan: string)
    requires plan != ""
    ensures StateFields(EMPTY.(plan := plan)) == J.Fields(PLAN, J.Text(plan), J.NoFields)
    ensures EncodeState(EMPTY.(plan := plan)) == ['{'] + (J.Quoted(PLAN) + [':'] + J.Quoted(plan) + "" + ['}'])
  {
    hide J.Quoted, PLAN;
    var fs := J.Fields(PLAN, J.Text(plan), J.NoFields);
    assert StateFields(EMPTY.(plan := plan)) == fs;
    assert J.EncodeFields(J.NoFields) == ['}'] && J.Comma(false) == "";
    assert J.Encode(J.Text(plan)) == J.Quoted(plan);
    assert J.EncodeFields(fs) == J.Quoted(PLAN) + [':'] + J.Quoted(plan) + "" + ['}'];
  }

  /** The decoder reads more than is ever written: this plan comes back, and no state is
      written so. */
  lemma SpacedPlanIsRead(plan: string)
    requires plan != ""
    ensures DecodeState(SpacedPlan(plan)) == Some(EMPTY.(plan := plan))
    ensures forall s :: EncodeState(s) != SpacedPlan(plan)
  {
    hide J.Quoted, J.Parse, J.Encode, ReadState, StateFields, EncodeState, PLAN;
    var s := EMPTY.(plan := plan);
    SpacedPlanParses(plan);
    PlanAlone(plan);
    ReadsState(s);
    assert |SpacedPlan(plan)| == |EncodeState(s)| + 1;
    forall s' ensures EncodeState(s') != SpacedPlan(plan) {
      DecodesEncoding(s');
    }
  }

  /* ---- when a written block reads back ---- */

  ghost predicate EntryHolds(e: Entry, mark: string) {
    Contains(e.name, mark) || Contains(e.body, mark)
  }

  ghost predicate EntriesHold(es: seq<Entry>, mark: string) {
    exists k :: 0 <= k < |es| && EntryHolds(es[k], mark)
  }

  /** Some text of the state holds the mark. */
  ghost predicate StateHolds(s: State, mark: string) {
    || Contains(s.plan, mark)
    || (s.task.Some? && (Contains(s.task.value.objective, mark) || Contains(s.task.value.status, mark)))
    || EntriesHold(s.edits, mark) || EntriesHold(s.tools, mark) || EntriesHold(s.skills, mark)
    || EntriesHold(s.instructions, mark)
  }

  lemma OptionalHolds(present: bool, name: string, value: J.Value, tail: J.Fields, mark: string)
    requires !Contains(name, mark) && (!present ==> !J.Holds(value, mark))
    ensures J.FieldsHold(Optional(present, name, value, tail), mark) <==> J.Holds(value, mark) || J.FieldsHold(tail, mark)
  {
    hide Contains;
  }

  /** No key holds a mark that opens with a byte the keys do not have. */
  predicate NotInKeys(mark: string) {
    && mark != ""
    && mark[0] !in PLAN && mark[0] !in TASK && mark[0] !in RECENT_EDITS && mark[0] !in TOOLS && mark[0] !in SKILLS
    && mark[0] !in PROJECT_INSTRUCTIONS && mark[0] !in OBJECTIVE && mark[0] !in STATUS && mark[0] !in PATH
    && mark[0] !in NOTE && mark[0] !in NAME && mark[0] !in SOURCE && mark[0] !in BODY
  }

  lemma KeyIsFree(key: string, mark: string)
    requires mark != "" && mark[0] !in key
    ensures !Contains(key, mark)
  {
    J.SkipBytes(key, "", mark);
    J.HoldsNothing(mark);
    assert key + "" == key;
  }

  predicate FreeKeys(k: Keys, mark: string) {
    mark != "" && mark[0] !in k.name && mark[0] !in k.body
  }

  lemma EntryValueHolds(k: Keys, e: Entry, mark: string)
    requires FreeKeys(k, mark)
    ensures J.Holds(EntryValue(k, e), mark) <==> EntryHolds(e, mark)
  {
    hide Contains;
    KeyIsFree(k.name, mark);
    KeyIsFree(k.body, mark);
    J.HoldsNothing(mark);
    OptionalHolds(!k.omitEmpty || e.body != "", k.body, J.Text(e.body), J.NoFields, mark);
    TextHolds(e.name, mark);
    TextHolds(e.body, mark);
  }

  lemma TextHolds(s: string, mark: string)
    ensures J.Holds(J.Text(s), mark) <==> Contains(s, mark)
    ensures !J.FieldsHold(J.NoFields, mark)
  {
  }

  lemma {:induction false} EntryItemsHold(k: Keys, es: seq<Entry>, mark: string)
    requires FreeKeys(k, mark)
    ensures J.ItemsHold(EntryItems(k, es), mark) <==> EntriesHold(es, mark)
  {
    hide EntryValue, EntryHolds, FreeKeys;
    if es != [] {
      EntryValueHolds(k, es[0], mark);
      EntryItemsHold(k, es[1..], mark);
      assert forall i :: 0 <= i < |es| - 1 ==> es[1..][i] == es[i + 1];
      if EntriesHold(es, mark) && !EntryHolds(es[0], mark) {
        var i :| 0 <= i < |es| && EntryHolds(es[i], mark);
        assert es[1..][i - 1] == es[i];
      }
    }
  }

  lemma ListFieldHolds(name: string, k: Keys, es: seq<Entry>, tail: J.Fields, mark: string)
    requires FreeKeys(k, mark) && mark[0] !in name
    ensures J.FieldsHold(ListField(name, k, es, tail), mark) <==> EntriesHold(es, mark) || J.FieldsHold(tail, mark)
  {
    hide Contains, EntryItems, EntriesHold;
    EntryItemsHold(k, es, mark);
    KeyIsFree(name, mark);
    NoneHold(mark);
    OptionalHolds(es != [], name, J.List(EntryItems(k, es)), tail, mark);
  }

  lemma NoneHold(mark: string)
    ensures !EntriesHold([], mark)
  {
  }

  lemma TaskHolds(t: Task, mark: string)
    requires NotInKeys(mark)
    ensures J.Holds(TaskValue(t), mark) <==> Contains(t.objective, mark) || Contains(t.status, mark)
  {
    hide Contains, OBJECTIVE, STATUS, PLAN, TASK, RECENT_EDITS, TOOLS, SKILLS, PROJECT_INSTRUCTIONS, PATH, NOTE,
      NAME, SOURCE, BODY;
    KeyIsFree(OBJECTIVE, mark);
    KeyIsFree(STATUS, mark);
    J.HoldsNothing(mark);
    OptionalHolds(t.status != "", STATUS, J.Text(t.status), J.NoFields, mark);
    TextHolds(t.objective, mark);
    TextHolds(t.status, mark);
  }

  lemma KeysAreFree(mark: string)
    requires NotInKeys(mark)
    ensures FreeKeys(EDIT_KEYS, mark) && FreeKeys(TOOL_KEYS, mark) && FreeKeys(INSTRUCTION_KEYS, mark)
  {
    hide PLAN, TASK, RECENT_EDITS, TOOLS, SKILLS, PROJECT_INSTRUCTIONS, OBJECTIVE, STATUS, PATH, NOTE, NAME, SOURCE,
      BODY;
  }

  lemma ListsHold(s: State, mark: string)
    requires NotInKeys(mark)
    ensures J.FieldsHold(ListFields(s), mark) <==>
      EntriesHold(s.edits, mark) || EntriesHold(s.tools, mark) || EntriesHold(s.skills, mark) || EntriesHold(s.instructions, mark)
  {
    hide Contains, ListField, EntriesHold, FreeKeys, EDIT_KEYS, TOOL_KEYS, INSTRUCTION_KEYS,
      PLAN, TASK, RECENT_EDITS, TOOLS, SKILLS, PROJECT_INSTRUCTIONS, OBJECTIVE, STATUS, PATH, NOTE, NAME, SOURCE, BODY;
    KeysAreFree(mark);
    var instructions := ListField(PROJECT_INSTRUCTIONS, INSTRUCTION_KEYS, s.instructions, J.NoFields);
    var skills := ListField(SKILLS, TOOL_KEYS, s.skills, instructions);
    var tools := ListField(TOOLS, TOOL_KEYS, s.tools, skills);
    ListFieldHolds(PROJECT_INSTRUCTIONS, INSTRUCTION_KEYS, s.instructions, J.NoFields, mark);
    ListFieldHolds(SKILLS, TOOL_KEYS, s.skills, instructions, mark);
    ListFieldHolds(TOOLS, TOOL_KEYS, s.tools, skills, mark);
    ListFieldHolds(RECENT_EDITS, EDIT_KEYS, s.edits, tools, mark);
  }

  /** The fields hold a mark exactly when a text of the state does. */
  lemma FieldsHoldState(s: State, mark: string)
    requires NotInKeys(mark)
    ensures J.FieldsHold(StateFields(s), mark) <==> StateHolds(s, mark)
  {
    hide Contains, Optional, ListFields, TaskValue, EntriesHold, TASK, PLAN,
      RECENT_EDITS, TOOLS, SKILLS, PROJECT_INSTRUCTIONS, OBJECTIVE, STATUS, PATH, NOTE, NAME, SOURCE, BODY;
    ListsHold(s, mark);
    J.HoldsNothing(mark);
    TextHolds(s.plan, mark);
    if s.task.Some? {
      TaskHolds(s.task.value, mark);
    }
    KeyIsFree(TASK, mark);
    KeyIsFree(PLAN, mark);
    OptionalHolds(s.task.Some?, TASK, TaskField(s.task), ListFields(s), mark);
    OptionalHolds(s.plan != "", PLAN, J.Text(s.plan), Optional(s.task.Some?, TASK, TaskField(s.task), ListFields(s)), mark);
  }

  /** The encoding holds a mark exactly when a text of the state does. */
  lemma EncodingHoldsIff(s: State, mark: string)
    requires J.Inert(mark) && NotInKeys(mark)
    ensures Contains(EncodeState(s), mark) <==> StateHolds(s, mark)
  {
    hide Contains, J.Inert, NotInKeys, StateFields, J.Encode, StateHolds, J.Shaped, J.Written;
    var v := J.Object(StateFields(s));
    StateIsShaped(s);
    J.EncodingHolds(v, "", mark);
    FieldsHoldState(s, mark);
    assert J.Encode(v) + "" == J.Encode(v);
    MarkIsSomething(mark);
    J.HoldsNothing(mark);
  }

  lemma MarkIsSomething(mark: string)
    requires J.Inert(mark)
    ensures mark != ""
  {
  }

  lemma JoinedIsInert(a: string, b: string)
    requires J.InertText(a) && J.InertText(b)
    ensures J.InertText(a + b)
  {
  }

  lemma HeadIsInert()
    ensures LABEL_HEAD != "" && LABEL_HEAD[0] == '#' && J.InertText(LABEL_HEAD)
  {
    assert J.InertText("## Preserved ") && J.InertText("state (active");
    JoinedIsInert("## Preserved ", "state (active");
  }

  lemma MiddleIsInert()
    ensures J.InertText(LABEL_MIDDLE)
  {
    assert J.InertText(" plan + ") && J.InertText("loaded skills;");
    JoinedIsInert(" plan + ", "loaded skills;");
  }

  lemma TailIsInert()
    ensures J.InertText(LABEL_TAIL)
  {
    assert J.InertText(" carried ") && J.InertText("across compaction)");
    JoinedIsInert(" carried ", "across compaction)");
  }

  lemma LabelIsInert()
    ensures J.Inert(STATE_LABEL) && NotInKeys(STATE_LABEL)
  {
    hide J.InertText, LABEL_HEAD, LABEL_MIDDLE, LABEL_TAIL;
    HeadIsInert();
    MiddleIsInert();
    TailIsInert();
    JoinedIsInert(LABEL_HEAD, LABEL_MIDDLE);
    JoinedIsInert(LABEL_HEAD + LABEL_MIDDLE, LABEL_TAIL);
    assert STATE_LABEL[0] == LABEL_HEAD[0];
  }

  /** A written state reads back, whatever the prose before it, exactly when none of its
      texts holds the label. */
  lemma StateReadsBackIff(prose: string, s: State)
    requires s != EMPTY
    ensures ParseBlock(JSON, WithBlock(JSON, STATE_LABEL, prose, s)) == s <==> !StateHolds(s, STATE_LABEL)
  {
    hide EncodeState, DecodeState, StateHolds, ParseAfter, WithBlock, Contains;
    JsonIsLawful();
    LabelHasNoNewline();
    LabelIsInert();
    RoundTripIff(JSON, STATE_LABEL, prose, s);
    EncodingHoldsIff(s, STATE_LABEL);
  }

  /** Such a state: a loaded skill whose body is the label. */
  lemma LabelInSkillIsLost(prose: string, name: string)
    ensures var s := EMPTY.(skills := [Entry(name, STATE_LABEL)]);
      ParseBlock(JSON, WithBlock(JSON, STATE_LABEL, prose, s)) != s
  {
    hide ParseBlock, WithBlock, STATE_LABEL;
    var skill := Entry(name, STATE_LABEL);
    var s := EMPTY.(skills := [skill]);
    assert OccursAt(STATE_LABEL, STATE_LABEL, 0);
    assert EntryHolds(skill, STATE_LABEL);
    assert s.skills[0] == skill;
    StateReadsBackIff(prose, s);
  }
}
