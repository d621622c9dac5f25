/** The runaway guards: their counters against the history they summarize, and the bound
    they put on a run that repeats itself. */
module Guards {
  import opened Text
  import opened Transcript
  import Prune

  const MAX_EMPTY_TURNS := 3
  const NO_ACTION_REMINDER_AT := 3
  const MAX_NO_ACTION_TURNS := 6
  const TOOL_FAILURE_HINT_AT := 2
  const TOOL_FAILURE_STOP_AT := 6
  const NO_OP_HINT_AT := 3
  const NO_OP_STOP_AT := 6

  /* ---- turns that do not act ---- */

  /** A turn as the guards see it: silent, perhaps with reasoning; one whose calls could not
      run; one cut off for repeating itself; or one with text or tool calls. */
  datatype Turn = Silent(reasoning: bool) | DroppedCall | Degenerate | Acted

  /** The length of the longest suffix of turns that did not act. */
  function NoActionSuffix(turns: seq<Turn>): nat {
    if turns == [] || turns[|turns| - 1].Acted? then 0 else 1 + NoActionSuffix(turns[..|turns| - 1])
  }

  lemma {:induction false} NoActionSuffixIsLongest(turns: seq<Turn>)
    ensures var n := NoActionSuffix(turns);
      && n <= |turns|
      && (forall k :: |turns| - n <= k < |turns| ==> !turns[k].Acted?)
      && (n < |turns| ==> turns[|turns| - n - 1].Acted?)
  {
    if turns != [] && !turns[|turns| - 1].Acted? {
      NoActionSuffixIsLongest(turns[..|turns| - 1]);
    }
  }

  predicate ResetsEmpty(t: Turn) {
    t.Acted? || (t.Silent? && t.reasoning)
  }

  /** Fully empty turns since the last turn that acted or reasoned; calls that could not run
      and cut-off turns are passed over. */
  function EmptyCount(turns: seq<Turn>): nat {
    if turns == [] || ResetsEmpty(turns[|turns| - 1]) then 0
    else EmptyCount(turns[..|turns| - 1]) + if turns[|turns| - 1].Silent? then 1 else 0
  }

  /** Turn `k` was fully empty, and no turn after it acted or reasoned. */
  predicate StillEmpty(turns: seq<Turn>, k: int) {
    && 0 <= k < |turns| && turns[k] == Silent(false)
    && forall j :: k < j < |turns| ==> !turns[j].Acted? && turns[j] != Silent(true)
  }

  function EmptySince(turns: seq<Turn>): set<int> {
    set k | 0 <= k < |turns| && StillEmpty(turns, k)
  }

  lemma StillEmptyInit(turns: seq<Turn>, k: int)
    requires turns != [] && k < |turns| - 1
    ensures var n := |turns| - 1;
      StillEmpty(turns, k) <==> StillEmpty(turns[..n], k) && !turns[n].Acted? && turns[n] != Silent(true)
  {
  }

  lemma LastIsEmpty(turns: seq<Turn>)
    requires turns != []
    ensures StillEmpty(turns, |turns| - 1) <==> turns[|turns| - 1] == Silent(false)
  {
  }

  lemma {:induction false} EmptyCountIs(turns: seq<Turn>)
    ensures EmptyCount(turns) == |EmptySince(turns)|
  {
    hide StillEmpty;
    if turns == [] {
      assert EmptySince(turns) == {};
    } else {
      var n := |turns| - 1;
      EmptyCountIs(turns[..n]);
      LastIsEmpty(turns);
      forall k | k < n
        ensures StillEmpty(turns, k) <==> StillEmpty(turns[..n], k) && !turns[n].Acted? && turns[n] != Silent(true)
      {
        StillEmptyInit(turns, k);
      }
      if turns[n].Acted? || turns[n] == Silent(true) {
        assert EmptySince(turns) == {};
      } else {
        assert EmptySince(turns) == EmptySince(turns[..n]) + if turns[n] == Silent(false) then {n} else {};
      }
    }
  }

  lemma {:induction false} EmptyAtMostNoAction(turns: seq<Turn>)
    ensures EmptyCount(turns) <= NoActionSuffix(turns)
  {
    if turns != [] && !ResetsEmpty(turns[|turns| - 1]) {
      EmptyAtMostNoAction(turns[..|turns| - 1]);
    }
  }

  /** The turn that ends this history stops the run. */
  predicate StopsIdle(turns: seq<Turn>) {
    turns != [] && (
      NoActionSuffix(turns) >= MAX_NO_ACTION_TURNS
      || (EmptyCount(turns) >= MAX_EMPTY_TURNS && (turns[|turns| - 1].Silent? || turns[|turns| - 1].Acted?)))
  }

  /** A run that has not been stopped is stopped exactly when a counter reaches its cap, so
      never later than the sixth turn in a row without action. */
  lemma StopsExactlyAtTheCap(turns: seq<Turn>, t: Turn)
    requires forall k :: 0 <= k <= |turns| ==> !StopsIdle(turns[..k])
    ensures StopsIdle(turns + [t]) <==>
      NoActionSuffix(turns + [t]) == MAX_NO_ACTION_TURNS || (t == Silent(false) && EmptyCount(turns + [t]) == MAX_EMPTY_TURNS)
    ensures NoActionSuffix(turns) < MAX_NO_ACTION_TURNS && EmptyCount(turns) < MAX_EMPTY_TURNS
  {
    assert turns[..|turns|] == turns;
    assert (turns + [t])[..|turns|] == turns;
    EmptyUnderCap(turns);
  }

  lemma {:induction false} EmptyUnderCap(turns: seq<Turn>)
    requires forall k :: 0 <= k <= |turns| ==> !StopsIdle(turns[..k])
    ensures EmptyCount(turns) < MAX_EMPTY_TURNS
  {
    if turns != [] {
      var init := turns[..|turns| - 1];
      assert turns[..|turns|] == turns;
      forall k | 0 <= k <= |init| ensures !StopsIdle(init[..k]) {
        assert init[..k] == turns[..k];
      }
      EmptyUnderCap(init);
    }
  }

  /* ---- repeated failures of one tool ---- */

  datatype Attempt = Success | Failure(signature: string)

  /** The length of the longest suffix of failures that share one signature. */
  function FailureStreak(h: seq<Attempt>): nat {
    if h == [] || h[|h| - 1].Success? then 0
    else if |h| > 1 && h[|h| - 2] == h[|h| - 1] then 1 + FailureStreak(h[..|h| - 1])
    else 1
  }

  lemma {:induction false} FailureStreakIsLongest(h: seq<Attempt>)
    ensures var n := FailureStreak(h);
      && n <= |h|
      && (forall k :: |h| - n <= k < |h| ==> h[k].Failure? && h[k] == h[|h| - 1])
      && (n < |h| ==> h[|h| - n - 1] != h[|h| - 1] || h[|h| - 1].Success?)
      && (n == 0 <==> h == [] || h[|h| - 1].Success?)
  {
    if |h| > 1 && h[|h| - 1].Failure? && h[|h| - 2] == h[|h| - 1] {
      FailureStreakIsLongest(h[..|h| - 1]);
    }
  }

  datatype FailureRecord = FailureRecord(count: nat, signature: string, hintShown: bool)
  datatype GuardOutcome = GuardOutcome(injectHint: bool, stop: bool, count: nat)

  /** The record the guard keeps of one tool's attempts. */
  function RecordOf(h: seq<Attempt>): Option<FailureRecord> {
    if FailureStreak(h) == 0 then None
    else Some(FailureRecord(FailureStreak(h), h[|h| - 1].signature, FailureStreak(h) >= TOOL_FAILURE_HINT_AT))
  }

  function FailureOutcome(h: seq<Attempt>): GuardOutcome {
    GuardOutcome(FailureStreak(h) == TOOL_FAILURE_HINT_AT, FailureStreak(h) >= TOOL_FAILURE_STOP_AT, FailureStreak(h))
  }

  /* ---- calls that change nothing ---- */

  /** A turn's call keys, and whether it changed a file. */
  datatype ToolTurn = ToolTurn(keys: seq<string>, changed: bool)

  function CallKey(call: ToolCall): string {
    call.name + "\0" + call.arguments
  }

  /** With names free of NUL bytes a key stands for one name and one argument string. */
  lemma CallKeyIdentifies(a: ToolCall, b: ToolCall)
    requires Prune.NulFree(a.name) && Prune.NulFree(b.name)
    ensures CallKey(a) == CallKey(b) <==> a.name == b.name && a.arguments == b.arguments
  {
    if CallKey(a) == CallKey(b) {
      Prune.KeyIsInjective(a.name, a.arguments, b.name, b.arguments);
    }
  }

  function KeySet(keys: seq<string>): set<string> {
    set k | k in keys
  }

  function SeenKeys(h: seq<ToolTurn>): set<string> {
    if h == [] then {} else SeenKeys(h[..|h| - 1]) + KeySet(h[|h| - 1].keys)
  }

  /** Every call of the turn was made before, and no file changed. */
  predicate RepeatsOnly(before: seq<ToolTurn>, t: ToolTurn) {
    !t.changed && KeySet(t.keys) <= SeenKeys(before)
  }

  /** The length of the longest suffix of turns that only repeated earlier calls. */
  function NoOpSuffix(h: seq<ToolTurn>): nat {
    if h == [] || !RepeatsOnly(h[..|h| - 1], h[|h| - 1]) then 0 else 1 + NoOpSuffix(h[..|h| - 1])
  }

  function NoOpOutcome(h: seq<ToolTurn>): GuardOutcome {
    GuardOutcome(NoOpSuffix(h) == NO_OP_HINT_AT, NoOpSuffix(h) >= NO_OP_STOP_AT, NoOpSuffix(h))
  }

  /** The potential that bounds a run: each new key buys six turns. */
  lemma {:induction false} NoOpPotential(h: seq<ToolTurn>)
    requires h != [] && forall k :: 0 <= k < |h| ==> !h[k].changed && h[k].keys != []
    requires forall m :: 0 <= m < |h| ==> NoOpSuffix(h[..m]) < NO_OP_STOP_AT
    ensures |h| <= 6 * |SeenKeys(h)| - 5 + NoOpSuffix(h)
  {
    var n := |h| - 1;
    var init, t := h[..n], h[n];
    if n == 0 {
      assert init == [] && t.keys[0] in SeenKeys(h);
    } else {
      forall m | 0 <= m < |init| ensures NoOpSuffix(init[..m]) < NO_OP_STOP_AT {
        assert init[..m] == h[..m];
      }
      NoOpPotential(init);
      assert NoOpSuffix(init) < NO_OP_STOP_AT;
      if RepeatsOnly(init, t) {
        assert SeenKeys(h) == SeenKeys(init);
      } else {
        GrowsBy(SeenKeys(init), KeySet(t.keys));
      }
    }
  }

  lemma GrowsBy(seen: set<string>, keys: set<string>)
    requires !(keys <= seen)
    ensures |seen + keys| >= |seen| + 1
  {
    var k :| k in keys && k !in seen;
    assert seen + {k} <= seen + keys;
    SubsetSize(seen + {k}, seen + keys);
  }

  lemma SubsetSize(a: set<string>, b: set<string>)
    requires a <= b
    ensures |a| <= |b|
  {
    assert b == a + (b - a);
  }

  /** A run whose tool turns change no file and draw on K distinct calls is stopped within
      6K + 1 of them: one that was never stopped has made at most 6K. */
  lemma NoOpGuardTerminatesRun(h: seq<ToolTurn>, keys: set<string>)
    requires forall k :: 0 <= k < |h| ==> !h[k].changed && h[k].keys != []
    requires SeenKeys(h) <= keys
    requires forall m :: 0 <= m <= |h| ==> !NoOpOutcome(h[..m]).stop
    ensures |h| <= 6 * |keys|
  {
    if h != [] {
      assert h[..|h|] == h;
      forall m | 0 <= m <= |h| ensures NoOpSuffix(h[..m]) < NO_OP_STOP_AT {
        assert !NoOpOutcome(h[..m]).stop;
      }
      NoOpPotential(h);
      SubsetSize(SeenKeys(h), keys);
    }
  }

  function Again(key: string, n: nat): seq<ToolTurn> {
    if n == 0 then [] else Again(key, n - 1) + [ToolTurn([key], false)]
  }

  /** A call made for the first time and then repeated counts from its second use. */
  lemma {:induction false} RepeatsCount(h: seq<ToolTurn>, key: string, n: nat)
    requires key !in SeenKeys(h) && n > 0
    ensures NoOpSuffix(h + Again(key, n)) == n - 1
    ensures SeenKeys(h + Again(key, n)) == SeenKeys(h) + {key}
  {
    hide NoOpSuffix, SeenKeys;
    var t := ToolTurn([key], false);
    assert KeySet([key]) == {key};
    assert h + Again(key, n) == h + Again(key, n - 1) + [t];
    NoOpAfter(h + Again(key, n - 1), t);
    if n > 1 {
      RepeatsCount(h, key, n - 1);
    } else {
      assert h + Again(key, 0) == h;
    }
  }

  /** The bound is reached: K calls, each made six times over, are never stopped. */
  lemma {:induction false} NoOpBoundIsTight(keys: seq<string>) returns (h: seq<ToolTurn>)
    requires forall i, j :: 0 <= i < j < |keys| ==> keys[i] != keys[j]
    ensures |h| == 6 * |keys| && SeenKeys(h) == KeySet(keys)
    ensures forall k :: 0 <= k < |h| ==> !h[k].changed && h[k].keys != []
    ensures forall m :: 0 <= m <= |h| ==> !NoOpOutcome(h[..m]).stop
  {
    hide NoOpSuffix, SeenKeys;
    if keys == [] {
      h := [];
      NothingRepeated();
    } else {
      var n := |keys| - 1;
      var before := NoOpBoundIsTight(keys[..n]);
      h := before + Again(keys[n], 6);
      AgainTurns(keys[n], 6);
      assert keys == keys[..n] + [keys[n]];
      assert KeySet(keys) == KeySet(keys[..n]) + {keys[n]};
      RepeatsCount(before, keys[n], 6);
      forall m | 0 <= m <= |h| ensures !NoOpOutcome(h[..m]).stop {
        if m <= |before| {
          assert h[..m] == before[..m];
        } else {
          AgainPrefix(keys[n], 6, m - |before|);
          assert h[..m] == before + Again(keys[n], 6)[..m - |before|];
          RepeatsCount(before, keys[n], m - |before|);
        }
      }
    }
  }

  lemma NothingRepeated()
    ensures SeenKeys([]) == {} == KeySet([]) && NoOpSuffix([]) == 0
  {
  }

  lemma {:induction false} AgainTurns(key: string, n: nat)
    ensures |Again(key, n)| == n
    ensures forall k :: 0 <= k < n ==> Again(key, n)[k] == ToolTurn([key], false)
  {
    if n > 0 {
      AgainTurns(key, n - 1);
    }
  }

  lemma AgainPrefix(key: string, n: nat, m: nat)
    requires m <= n
    ensures |Again(key, n)| == n && Again(key, n)[..m] == Again(key, m)
  {
    AgainTurns(key, n);
    AgainTurns(key, m);
  }

  /* ---- reminders and streaks ---- */

  predicate GivenInStreak(turns: seq<Turn>, reminders: seq<nat>) {
    reminders != [] && reminders[|reminders| - 1] > |turns| - NoActionSuffix(turns)
  }

  /** Each reminder, by the number of turns before it, came in a streak of three or more
      turns without action. */
  ghost predicate RemindersDue(turns: seq<Turn>, reminders: seq<nat>) {
    forall k :: 0 <= k < |reminders| ==>
      reminders[k] <= |turns| && NoActionSuffix(turns[..reminders[k]]) >= NO_ACTION_REMINDER_AT
  }

  ghost predicate ActedBetween(turns: seq<Turn>, from: nat, to: nat) {
    to <= |turns| && exists i :: from <= i < to && turns[i].Acted?
  }

  /** No two reminders fall in one streak: a turn that acted lies between them. */
  ghost predicate OncePerStreak(turns: seq<Turn>, reminders: seq<nat>) {
    forall j, k :: 0 <= j < k < |reminders| ==> ActedBetween(turns, reminders[j], reminders[k])
  }

  ghost predicate RemindersOk(turns: seq<Turn>, reminders: seq<nat>, sent: bool) {
    RemindersDue(turns, reminders) && OncePerStreak(turns, reminders) && (sent <==> GivenInStreak(turns, reminders))
  }

  lemma CountersAfter(turns: seq<Turn>, t: Turn)
    ensures NoActionSuffix(turns + [t]) == if t.Acted? then 0 else NoActionSuffix(turns) + 1
    ensures EmptyCount(turns + [t]) == if ResetsEmpty(t) then 0 else EmptyCount(turns) + if t.Silent? then 1 else 0
    ensures NoActionSuffix(turns) <= |turns|
  {
    assert (turns + [t])[..|turns|] == turns;
    NoActionSuffixIsLongest(turns);
  }

  /** Earlier reminders stand when a turn is added; one that acts opens a new streak. */
  lemma RemindersAfter(turns: seq<Turn>, reminders: seq<nat>, sent: bool, t: Turn)
    requires RemindersOk(turns, reminders, sent)
    ensures RemindersOk(turns + [t], reminders, sent && !t.Acted?)
  {
    hide NoActionSuffix;
    CountersAfter(turns, t);
    forall k | 0 <= k < |reminders|
      ensures reminders[k] <= |turns + [t]| && NoActionSuffix((turns + [t])[..reminders[k]]) >= NO_ACTION_REMINDER_AT
    {
      assert (turns + [t])[..reminders[k]] == turns[..reminders[k]];
    }
    forall j, k | 0 <= j < k < |reminders| ensures ActedBetween(turns + [t], reminders[j], reminders[k]) {
      assert ActedBetween(turns, reminders[j], reminders[k]);
      var i :| reminders[j] <= i < reminders[k] && turns[i].Acted?;
      assert (turns + [t])[i].Acted?;
    }
  }

  /** A reminder outside the current streak was followed by a turn that acted. */
  lemma EarlierStreakEnded(turns: seq<Turn>, r: nat)
    requires 0 < NoActionSuffix(turns) && r <= |turns| - NoActionSuffix(turns)
    requires NoActionSuffix(turns[..r]) >= NO_ACTION_REMINDER_AT
    ensures r < |turns| && ActedBetween(turns, r, |turns|)
  {
    var n := NoActionSuffix(turns);
    NoActionSuffixIsLongest(turns);
    NoActionSuffixIsLongest(turns[..r]);
    assert !turns[..r][r - 1].Acted?;
    assert turns[|turns| - n - 1].Acted?;
  }

  lemma ReminderGiven(turns: seq<Turn>, reminders: seq<nat>)
    requires RemindersOk(turns, reminders, false) && NoActionSuffix(turns) >= NO_ACTION_REMINDER_AT
    ensures RemindersOk(turns, reminders + [|turns|], true)
  {
    ReminderIsDue(turns, reminders);
    NewReminderIsApart(turns, reminders);
    NoActionSuffixIsLongest(turns);
  }

  lemma ReminderIsDue(turns: seq<Turn>, reminders: seq<nat>)
    requires RemindersDue(turns, reminders) && NoActionSuffix(turns) >= NO_ACTION_REMINDER_AT
    ensures RemindersDue(turns, reminders + [|turns|])
  {
    hide NoActionSuffix;
    assert turns[..|turns|] == turns;
  }

  lemma ApartFromNow(turns: seq<Turn>, reminders: seq<nat>, j: nat)
    requires RemindersOk(turns, reminders, false) && NoActionSuffix(turns) >= NO_ACTION_REMINDER_AT
    requires j < |reminders|
    ensures ActedBetween(turns, reminders[j], |turns|)
  {
    hide NoActionSuffix, ActedBetween;
    var last := reminders[|reminders| - 1];
    EarlierStreakEnded(turns, last);
    if j < |reminders| - 1 {
      assert ActedBetween(turns, reminders[j], last);
      Widen(turns, reminders[j], last, |turns|);
    }
  }

  lemma NewReminderIsApart(turns: seq<Turn>, reminders: seq<nat>)
    requires RemindersOk(turns, reminders, false) && NoActionSuffix(turns) >= NO_ACTION_REMINDER_AT
    ensures OncePerStreak(turns, reminders + [|turns|])
  {
    hide NoActionSuffix, ActedBetween, RemindersDue, GivenInStreak;
    forall j: nat | j < |reminders| ensures ActedBetween(turns, reminders[j], |turns|) {
      ApartFromNow(turns, reminders, j);
    }
  }

  lemma Widen(turns: seq<Turn>, from: nat, mid: nat, to: nat)
    requires mid <= to <= |turns| && ActedBetween(turns, from, mid)
    ensures ActedBetween(turns, from, to)
  {
  }

  /* ---- the guard state ---- */

  predicate IdleCounters(turns: seq<Turn>, emptyTurns: nat, noActionTurns: nat, dropped: bool, degenerate: bool) {
    && emptyTurns == EmptyCount(turns)
    && noActionTurns == NoActionSuffix(turns)
    && (turns != [] && noActionTurns > 0 ==>
          && (dropped <==> turns[|turns| - 1].DroppedCall?)
          && (degenerate <==> turns[|turns| - 1].Degenerate?))
  }

  lemma IdleAfter(turns: seq<Turn>, e: nat, n: nat, dropped: bool, degenerate: bool, t: Turn)
    requires IdleCounters(turns, e, n, dropped, degenerate)
    ensures !t.Acted? ==> IdleCounters(turns + [t], if ResetsEmpty(t) then 0 else e + (if t.Silent? then 1 else 0), n + 1,
                                       t.DroppedCall?, t.Degenerate?)
    ensures t.Acted? ==> IdleCounters(turns + [t], 0, 0, dropped, degenerate)
    ensures StopsIdle(turns + [t]) <==>
      (!t.Acted? && n + 1 >= MAX_NO_ACTION_TURNS) || (t == Silent(false) && e + 1 >= MAX_EMPTY_TURNS)
  {
    CountersAfter(turns, t);
  }

  function AttemptsOf(attempts: map<string, seq<Attempt>>, name: string): seq<Attempt> {
    if name in attempts then attempts[name] else []
  }

  function Lookup(records: map<string, FailureRecord>, name: string): Option<FailureRecord> {
    if name in records then Some(records[name]) else None
  }

  /** Each tool's record is that of its attempts. */
  ghost predicate Recorded(attempts: map<string, seq<Attempt>>, records: map<string, FailureRecord>) {
    forall name :: Lookup(records, name) == RecordOf(AttemptsOf(attempts, name))
  }

  lemma RecordedAt(attempts: map<string, seq<Attempt>>, records: map<string, FailureRecord>, name: string)
    requires Recorded(attempts, records)
    ensures Lookup(records, name) == RecordOf(AttemptsOf(attempts, name))
  {
  }

  lemma RecordedAfter(attempts: map<string, seq<Attempt>>, records: map<string, FailureRecord>, name: string,
                      h: seq<Attempt>, records': map<string, FailureRecord>)
    requires Recorded(attempts, records) && Lookup(records', name) == RecordOf(h)
    requires forall other :: other != name ==> Lookup(records', other) == Lookup(records, other)
    ensures Recorded(attempts[name := h], records')
  {
    hide RecordOf;
    forall n ensures Lookup(records', n) == RecordOf(AttemptsOf(attempts[name := h], n)) {
      assert Lookup(records, n) == RecordOf(AttemptsOf(attempts, n));
    }
  }

  predicate NoOpCounters(h: seq<ToolTurn>, seen: set<string>, noOpTurns: nat, sent: bool) {
    seen == SeenKeys(h) && noOpTurns == NoOpSuffix(h) && (sent <==> noOpTurns >= NO_OP_HINT_AT)
  }

  /** What a record becomes with one more failure, and what the guard says. */
  function NextRecord(record: Option<FailureRecord>, signature: string): (FailureRecord, GuardOutcome) {
    var counted :=
      if record.None? || record.value.signature != signature then FailureRecord(1, signature, false)
      else record.value.(count := record.value.count + 1);
    if counted.count >= TOOL_FAILURE_STOP_AT then (counted, GuardOutcome(false, true, counted.count))
    else if counted.count >= TOOL_FAILURE_HINT_AT && !counted.hintShown
    then (counted.(hintShown := true), GuardOutcome(true, false, counted.count))
    else (counted, GuardOutcome(false, false, counted.count))
  }

  lemma RecordAfterFailure(h: seq<Attempt>, signature: string)
    ensures var now := h + [Failure(signature)];
      var (record, outcome) := NextRecord(RecordOf(h), signature);
      RecordOf(now) == Some(record) && FailureOutcome(now) == outcome
  {
    var now := h + [Failure(signature)];
    assert now[..|h|] == h;
    FailureStreakIsLongest(h);
  }

  lemma RecordAfterSuccess(h: seq<Attempt>)
    ensures RecordOf(h + [Success]) == None && FailureOutcome(h + [Success]) == GuardOutcome(false, false, 0)
  {
  }

  lemma NoOpAfter(h: seq<ToolTurn>, t: ToolTurn)
    ensures SeenKeys(h + [t]) == SeenKeys(h) + KeySet(t.keys)
    ensures NoOpSuffix(h + [t]) == if RepeatsOnly(h, t) then NoOpSuffix(h) + 1 else 0
  {
    assert (h + [t])[..|h|] == h;
  }

  /** Adds a turn's keys to the set, and says whether any was new. */
  method AddKeys(seen: set<string>, keys: seq<string>) returns (known: set<string>, anyNew: bool)
    ensures known == seen + KeySet(keys)
    ensures anyNew <==> !(KeySet(keys) <= seen)
  {
    known, anyNew := seen, false;
    for i := 0 to |keys|
      invariant known == seen + KeySet(keys[..i])
      invariant anyNew <==> !(KeySet(keys[..i]) <= seen)
    {
      assert KeySet(keys[..i + 1]) == KeySet(keys[..i]) + {keys[i]};
      if keys[i] !in known {
        known := known + {keys[i]};
        anyNew := true;
      }
    }
    assert keys[..|keys|] == keys;
  }

  lemma NoOpHinted(h: seq<ToolTurn>, seen: set<string>, n: nat, sent: bool)
    requires NoOpCounters(h, seen, n, sent)
    ensures sent <==> n >= NO_OP_HINT_AT
  {
  }

  lemma NoOpCountersAfter(h: seq<ToolTurn>, seen: set<string>, n: nat, sent: bool, t: ToolTurn)
    requires NoOpCounters(h, seen, n, sent)
    ensures var again := !t.changed && KeySet(t.keys) <= seen;
      && NoOpCounters(h + [t], seen + KeySet(t.keys), if again then n + 1 else 0,
                      again && (sent || n + 1 >= NO_OP_HINT_AT))
      && NoOpOutcome(h + [t]) ==
           if again then GuardOutcome(n + 1 >= NO_OP_HINT_AT && !sent, n + 1 >= NO_OP_STOP_AT, n + 1)
           else GuardOutcome(false, false, 0)
  {
    NoOpAfter(h, t);
  }

  function TurnOf(hasToolCalls: bool, hasVisibleText: bool, hasReasoning: bool): Turn {
    if hasToolCalls || hasVisibleText then Acted else Silent(hasReasoning)
  }

  /** The counters one observed turn leaves. */
  lemma TurnCounted(turns: seq<Turn>, e: nat, n: nat, dropped: bool, degenerate: bool, hasToolCalls: bool,
                    hasVisibleText: bool, hasReasoning: bool)
    requires IdleCounters(turns, e, n, dropped, degenerate)
    ensures var idle := !hasToolCalls && !hasVisibleText;
      var e', n' := if idle && !hasReasoning then e + 1 else 0, if idle then n + 1 else 0;
      var now := turns + [TurnOf(hasToolCalls, hasVisibleText, hasReasoning)];
      && IdleCounters(now, e', n', dropped && !idle, degenerate && !idle)
      && (StopsIdle(now) <==> e' >= MAX_EMPTY_TURNS || n' >= MAX_NO_ACTION_TURNS)
  {
    hide IdleCounters, StopsIdle;
    IdleAfter(turns, e, n, dropped, degenerate, TurnOf(hasToolCalls, hasVisibleText, hasReasoning));
  }

  class GuardState {
    var emptyTurns: nat
    var noActionTurns: nat
    var noActionReminderSent: bool
    var noActionDroppedCall: bool
    var noActionDegenerate: bool
    var toolFailures: map<string, FailureRecord>
    var seenToolCalls: set<string>
    var noOpTurns: nat
    var noOpReminderSent: bool
    ghost var turns: seq<Turn>
    ghost var reminders: seq<nat>
    ghost var attempts: map<string, seq<Attempt>>
    ghost var toolTurns: seq<ToolTurn>

    ghost predicate Valid()
      reads this
    {
      && IdleCounters(turns, emptyTurns, noActionTurns, noActionDroppedCall, noActionDegenerate)
      && RemindersOk(turns, reminders, noActionReminderSent)
      && Recorded(attempts, toolFailures)
      && NoOpCounters(toolTurns, seenToolCalls, noOpTurns, noOpReminderSent)
    }

    constructor ()
      ensures Valid() && turns == [] && toolTurns == [] && reminders == [] && attempts == map[]
    {
      emptyTurns, noActionTurns, noActionReminderSent := 0, 0, false;
      noActionDroppedCall, noActionDegenerate := false, false;
      toolFailures, seenToolCalls, noOpTurns, noOpReminderSent := map[], {}, 0, false;
      turns, reminders, attempts, toolTurns := [], [], map[], [];
    }

    /** Counts a turn that answered, called tools, or did neither. */
    method ObserveTurn(hasToolCalls: bool, hasVisibleText: bool, hasReasoning: bool) returns (stop: bool)
      requires Valid()
      modifies `emptyTurns, `noActionTurns, `noActionReminderSent, `noActionDroppedCall, `noActionDegenerate, `turns
      ensures Valid()
      ensures turns == old(turns) + [TurnOf(hasToolCalls, hasVisibleText, hasReasoning)]
      ensures stop <==> StopsIdle(turns)
    {
      hide RemindersOk, Recorded, NoOpCounters, IdleCounters, StopsIdle;
      ghost var turn := TurnOf(hasToolCalls, hasVisibleText, hasReasoning);
      TurnCounted(turns, emptyTurns, noActionTurns, noActionDroppedCall, noActionDegenerate,
                  hasToolCalls, hasVisibleText, hasReasoning);
      RemindersAfter(turns, reminders, noActionReminderSent, turn);
      if hasToolCalls || hasVisibleText || hasReasoning {
        emptyTurns := 0;
      } else {
        emptyTurns := emptyTurns + 1;
      }
      if !hasToolCalls && !hasVisibleText {
        noActionTurns := noActionTurns + 1;
        noActionDroppedCall := false;
        noActionDegenerate := false;
      } else {
        noActionTurns := 0;
        noActionReminderSent := false;
      }
      turns := turns + [turn];
      stop := emptyTurns >= MAX_EMPTY_TURNS || noActionTurns >= MAX_NO_ACTION_TURNS;
    }

    /** Counts a turn whose calls could not run. */
    method ObserveNoActionTurn() returns (stop: bool)
      requires Valid()
      modifies `noActionTurns, `noActionDroppedCall, `noActionDegenerate, `turns
      ensures Valid() && turns == old(turns) + [DroppedCall]
      ensures stop <==> StopsIdle(turns)
    {
      hide RemindersOk, Recorded, NoOpCounters, IdleCounters, StopsIdle;
      IdleAfter(turns, emptyTurns, noActionTurns, noActionDroppedCall, noActionDegenerate, DroppedCall);
      RemindersAfter(turns, reminders, noActionReminderSent, DroppedCall);
      noActionTurns := noActionTurns + 1;
      noActionDroppedCall := true;
      noActionDegenerate := false;
      turns := turns + [DroppedCall];
      stop := noActionTurns >= MAX_NO_ACTION_TURNS;
    }

    /** Counts a turn cut off for repeating itself. */
    method ObserveDegenerateTurn() returns (stop: bool)
      requires Valid()
      modifies `noActionTurns, `noActionDroppedCall, `noActionDegenerate, `turns
      ensures Valid() && turns == old(turns) + [Degenerate]
      ensures stop <==> StopsIdle(turns)
    {
      hide RemindersOk, Recorded, NoOpCounters, IdleCounters, StopsIdle;
      IdleAfter(turns, emptyTurns, noActionTurns, noActionDroppedCall, noActionDegenerate, Degenerate);
      RemindersAfter(turns, reminders, noActionReminderSent, Degenerate);
      noActionTurns := noActionTurns + 1;
      noActionDroppedCall := false;
      noActionDegenerate := true;
      turns := turns + [Degenerate];
      stop := noActionTurns >= MAX_NO_ACTION_TURNS;
    }

    /** The nudge of a streak: given from the third turn on, and once per streak. */
    method NoActionReminder() returns (reminder: Option<nat>)
      requires Valid()
      modifies `noActionReminderSent, `reminders
      ensures Valid()
      ensures reminder == if GivenInStreak(turns, old(reminders)) || NoActionSuffix(turns) < NO_ACTION_REMINDER_AT then None
                          else Some(NoActionSuffix(turns))
      ensures reminders == if reminder.Some? then old(reminders) + [|turns|] else old(reminders)
    {
      hide NoActionSuffix, EmptyCount, RemindersDue, OncePerStreak, GivenInStreak, Recorded, NoOpCounters;
      if noActionReminderSent || noActionTurns < NO_ACTION_REMINDER_AT {
        return None;
      }
      noActionReminderSent := true;
      ReminderGiven(turns, reminders);
      reminders := reminders + [|turns|];
      reminder := Some(noActionTurns);
    }

    /** Counts a tool's failures of one kind: a hint at the second, a stop from the sixth. */
    method ObserveToolResult(name: string, failed: bool, signature: string) returns (outcome: GuardOutcome)
      requires Valid()
      modifies `toolFailures, `attempts
      ensures Valid()
      ensures attempts == old(attempts)[name := AttemptsOf(old(attempts), name) + [if failed then Failure(signature) else Success]]
      ensures outcome == FailureOutcome(attempts[name])
    {
      hide IdleCounters, RemindersOk, NoOpCounters, RecordOf, FailureOutcome, Recorded;
      ghost var before := AttemptsOf(attempts, name);
      RecordedAt(attempts, toolFailures, name);
      attempts := attempts[name := before + [if failed then Failure(signature) else Success]];
      if !failed {
        RecordAfterSuccess(before);
        RecordedAfter(old(attempts), toolFailures, name, before + [Success], toolFailures - {name});
        toolFailures := toolFailures - {name};
        return GuardOutcome(false, false, 0);
      }
      RecordAfterFailure(before, signature);
      var record: FailureRecord;
      if name !in toolFailures || toolFailures[name].signature != signature {
        record := FailureRecord(1, signature, false);
      } else {
        record := toolFailures[name].(count := toolFailures[name].count + 1);
      }
      outcome := GuardOutcome(false, false, record.count);
      if record.count >= TOOL_FAILURE_STOP_AT {
        outcome := outcome.(stop := true);
      } else if record.count >= TOOL_FAILURE_HINT_AT && !record.hintShown {
        record := record.(hintShown := true);
        outcome := outcome.(injectHint := true);
      }
      RecordedAfter(old(attempts), toolFailures, name, before + [Failure(signature)], toolFailures[name := record]);
      toolFailures := toolFailures[name := record];
    }

    /** Counts the turns whose every call repeats an earlier one and which change no file. */
    method ObserveNoOpToolCalls(keys: seq<string>, changedFiles: bool) returns (outcome: GuardOutcome)
      requires Valid()
      modifies `seenToolCalls, `noOpTurns, `noOpReminderSent, `toolTurns
      ensures Valid()
      ensures keys == [] ==> toolTurns == old(toolTurns) && outcome == GuardOutcome(false, false, 0)
      ensures keys != [] ==> toolTurns == old(toolTurns) + [ToolTurn(keys, changedFiles)] && outcome == NoOpOutcome(toolTurns)
    {
      hide IdleCounters, RemindersOk, Recorded, NoOpCounters, NoOpOutcome, KeySet;
      if |keys| == 0 {
        return GuardOutcome(false, false, 0);
      }
      NoOpCountersAfter(toolTurns, seenToolCalls, noOpTurns, noOpReminderSent, ToolTurn(keys, changedFiles));
      NoOpHinted(toolTurns, seenToolCalls, noOpTurns, noOpReminderSent);
      var anyNew;
      seenToolCalls, anyNew := AddKeys(seenToolCalls, keys);
      var repeated := !changedFiles && !anyNew;
      toolTurns := toolTurns + [ToolTurn(keys, changedFiles)];
      if !repeated {
        noOpTurns := 0;
        noOpReminderSent := false;
        return GuardOutcome(false, false, 0);
      }
      noOpTurns := noOpTurns + 1;
      outcome := GuardOutcome(false, false, noOpTurns);
      if noOpTurns >= NO_OP_STOP_AT {
        outcome := outcome.(stop := true);
      } else if noOpTurns >= NO_OP_HINT_AT && !noOpReminderSent {
        noOpReminderSent := true;
        outcome := outcome.(injectHint := true);
      }
    }
  }
}
