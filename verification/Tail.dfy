/** Turn- and budget-aware selection of the verbatim tail. */
module Tail {
  import opened Text
  import opened Transcript

  const SUMMARY_LABEL := "[Summary of earlier conversation]"
  const CONTINUATION_TEXT :=
    "Continue if you have next steps, or stop and ask for clarification if you are unsure how to proceed."

  predicate IsSummaryMarker(m: Message) {
    HasPrefix(m.content, SUMMARY_LABEL)
  }

  predicate IsContinuation(m: Message) {
    m.role == User && HasPrefix(m.content, CONTINUATION_TEXT)
  }

  /** A real user ask: neither an injected summary nor the synthetic resume cue. */
  predicate StartsTurn(m: Message) {
    m.role == User && !IsSummaryMarker(m) && !IsContinuation(m)
  }

  /** A user turn: from its first message to just before the next turn. */
  datatype Turn = Turn(start: nat, end: nat)

  /** The turns cut `ms` from the first start at or after `from` to the end, each at its
      own starting message and nowhere else. */
  ghost predicate TurnsOf(ms: seq<Message>, from: nat, turns: seq<Turn>, end: nat) {
    && end <= |ms|
    && (forall k :: 0 <= k < |turns| ==>
          && from <= turns[k].start < turns[k].end <= end
          && StartsTurn(ms[turns[k].start]))
    && (forall j, k :: 0 <= j && k == j + 1 && k < |turns| ==> turns[j].end == turns[k].start)
    && (turns != [] ==> turns[|turns| - 1].end == end)
    && (forall k, i :: 0 <= k < |turns| && turns[k].start < i < turns[k].end ==> !StartsTurn(ms[i]))
    && (forall i :: from <= i < (if turns == [] then end else turns[0].start) ==> !StartsTurn(ms[i]))
  }

  lemma AddTurn(ms: seq<Message>, from: nat, turns: seq<Turn>, start: nat, end: nat)
    requires TurnsOf(ms, from, turns, start) && from <= start < end <= |ms| && StartsTurn(ms[start])
    requires forall i :: start < i < end ==> !StartsTurn(ms[i])
    ensures TurnsOf(ms, from, turns + [Turn(start, end)], end)
  {
    hide StartsTurn;
  }

  predicate StartsSome(turns: seq<Turn>, i: int) {
    exists k :: 0 <= k < |turns| && turns[k].start == i
  }

  lemma {:induction false} StartsAre(ms: seq<Message>, from: nat, turns: seq<Turn>, end: nat, i: nat)
    requires TurnsOf(ms, from, turns, end) && from <= i < end
    ensures StartsSome(turns, i) <==> StartsTurn(ms[i])
  {
    hide StartsTurn;
    if turns != [] {
      var n := |turns| - 1;
      if i < turns[n].start {
        TurnsInit(ms, from, turns, end);
        StartsAre(ms, from, turns[..n], turns[n].start, i);
        assert forall k :: 0 <= k < n ==> turns[..n][k] == turns[k];
      } else if i > turns[n].start {
        StartsBefore(ms, from, turns, end, i);
      }
    }
  }

  lemma TurnsInit(ms: seq<Message>, from: nat, turns: seq<Turn>, end: nat)
    requires TurnsOf(ms, from, turns, end) && turns != []
    ensures var n := |turns| - 1; TurnsOf(ms, from, turns[..n], turns[n].start)
  {
    hide StartsTurn;
    var n := |turns| - 1;
    if n > 0 {
      var j := n - 1;
      assert turns[j].end == turns[n].start;
      StartsRise(ms, from, turns, end);
    }
  }

  lemma {:induction false} StartsRise(ms: seq<Message>, from: nat, turns: seq<Turn>, end: nat)
    requires TurnsOf(ms, from, turns, end)
    ensures forall j, k :: 0 <= j < k < |turns| ==> turns[j].end <= turns[k].start
  {
    hide StartsTurn;
    forall j, k | 0 <= j < k < |turns| ensures turns[j].end <= turns[k].start {
      Rises(ms, from, turns, end, j, k);
    }
  }

  lemma {:induction false} Rises(ms: seq<Message>, from: nat, turns: seq<Turn>, end: nat, j: nat, k: nat)
    requires TurnsOf(ms, from, turns, end) && j < k < |turns|
    ensures turns[j].end <= turns[k].start
  {
    hide StartsTurn;
    var p := k - 1;
    assert turns[p].end == turns[k].start;
    if j < p {
      Rises(ms, from, turns, end, j, p);
    }
  }

  lemma StartsBefore(ms: seq<Message>, from: nat, turns: seq<Turn>, end: nat, i: nat)
    requires TurnsOf(ms, from, turns, end) && turns != [] && turns[|turns| - 1].start < i < end
    ensures !StartsSome(turns, i) && !StartsTurn(ms[i])
  {
    hide StartsTurn;
    StartsRise(ms, from, turns, end);
    var n := |turns| - 1;
    forall k | 0 <= k < |turns| ensures turns[k].start <= turns[n].start {
      assert k < n ==> turns[k].end <= turns[n].start;
    }
  }

  /** A turn starts at exactly the user messages that are neither an injected summary nor the
      resume cue. */
  lemma TurnsStartAtAsks(ms: seq<Message>, from: nat, turns: seq<Turn>, i: nat)
    requires TurnsOf(ms, from, turns, |ms|) && from <= i < |ms|
    ensures StartsSome(turns, i) <==>
      ms[i].role == User && !(SUMMARY_LABEL <= ms[i].content) && !(CONTINUATION_TEXT <= ms[i].content)
  {
    hide TurnsOf, SUMMARY_LABEL, CONTINUATION_TEXT;
    StartsAre(ms, from, turns, |ms|, i);
  }

  /** Reading up to `i`: all turns but the newest are closed, and the newest is left open
      to the end of the history. */
  ghost predicate TurnsSoFar(ms: seq<Message>, from: nat, turns: seq<Turn>, i: nat)
    requires from <= i <= |ms|
  {
    if turns == [] then forall j :: from <= j < i ==> !StartsTurn(ms[j])
    else
      var newest := turns[|turns| - 1];
      && TurnsOf(ms, from, turns[..|turns| - 1], newest.start)
      && from <= newest.start < i && newest.end == |ms| && StartsTurn(ms[newest.start])
      && forall j :: newest.start < j < i ==> !StartsTurn(ms[j])
  }

  function Closed(turns: seq<Turn>, end: nat): seq<Turn> {
    if turns == [] then [] else turns[..|turns| - 1] + [turns[|turns| - 1].(end := end)]
  }

  lemma ClosingCompletes(ms: seq<Message>, from: nat, turns: seq<Turn>, i: nat)
    requires from <= i <= |ms| && TurnsSoFar(ms, from, turns, i)
    ensures TurnsOf(ms, from, Closed(turns, i), i)
  {
    hide StartsTurn, TurnsOf;
    if turns == [] {
      NoTurns(ms, from, i);
    } else {
      var newest := turns[|turns| - 1];
      AddTurn(ms, from, turns[..|turns| - 1], newest.start, i);
    }
  }

  lemma NoTurns(ms: seq<Message>, from: nat, i: nat)
    requires from <= i <= |ms| && forall j :: from <= j < i ==> !StartsTurn(ms[j])
    ensures TurnsOf(ms, from, [], i)
  {
  }

  lemma OpeningContinues(ms: seq<Message>, from: nat, turns: seq<Turn>, i: nat)
    requires from <= i < |ms| && TurnsSoFar(ms, from, turns, i) && StartsTurn(ms[i])
    ensures TurnsSoFar(ms, from, Closed(turns, i) + [Turn(i, |ms|)], i + 1)
  {
    hide StartsTurn, TurnsOf;
    ClosingCompletes(ms, from, turns, i);
    var grown := Closed(turns, i) + [Turn(i, |ms|)];
    assert grown[..|grown| - 1] == Closed(turns, i);
  }

  method SplitTurns(messages: seq<Message>, startIndex: nat) returns (turns: seq<Turn>)
    requires startIndex <= |messages|
    ensures TurnsOf(messages, startIndex, turns, |messages|)
  {
    hide StartsTurn, TurnsOf;
    turns := [];
    for i := startIndex to |messages|
      invariant TurnsSoFar(messages, startIndex, turns, i)
    {
      if StartsTurn(messages[i]) {
        OpeningContinues(messages, startIndex, turns, i);
        ghost var closed := Closed(turns, i);
        if turns != [] {
          turns := turns[|turns| - 1 := turns[|turns| - 1].(end := i)];
        }
        assert turns == closed;
        turns := turns + [Turn(i, |messages|)];
      }
    }
    ClosingCompletes(messages, startIndex, turns, |messages|);
    assert Closed(turns, |messages|) == turns;
  }

  /* ---- the simple specification ---- */

  function CountStarts(ms: seq<Message>, k: nat): nat
    requires k <= |ms|
    decreases |ms| - k
  {
    if k == |ms| then 0
    else CountStarts(ms, k + 1) + if StartsTurn(ms[k]) then 1 else 0
  }

  /** How many turns the suffix from `k` keeps, a cut one included. */
  function Touched(ms: seq<Message>, k: nat): nat
    requires k < |ms|
  {
    CountStarts(ms, k) + if StartsTurn(ms[k]) then 0 else 1
  }

  ghost predicate HasTurn(ms: seq<Message>, head: nat) {
    exists i :: head <= i < |ms| && StartsTurn(ms[i])
  }

  /** The start of the newest turn. */
  ghost predicate IsNewest(ms: seq<Message>, head: nat, i: nat) {
    head <= i < |ms| && StartsTurn(ms[i]) && forall j :: i < j < |ms| ==> !StartsTurn(ms[j])
  }

  function Max(a: int, b: int): int {
    if a < b then b else a
  }

  /** A boundary the tail may start at: inside the turns, within the turn cap, and within
      the budget, which always admits the newest turn. */
  ghost predicate Fits(ms: seq<Message>, head: nat, tailTurns: int, budget: int, newest: nat, k: nat)
    requires newest <= |ms|
  {
    && head <= k < |ms|
    && (exists i :: head <= i <= k && StartsTurn(ms[i]))
    && (tailTurns > 0 ==> Touched(ms, k) <= tailTurns)
    && Estimate(ms[k..]) <= Max(budget, Estimate(ms[newest..]))
  }

  /** The least boundary that fits. */
  ghost predicate IsPlan(ms: seq<Message>, head: nat, tailTurns: int, budget: int, newest: nat, boundary: nat)
    requires newest <= |ms|
  {
    Fits(ms, head, tailTurns, budget, newest, boundary)
    && forall k: nat :: Fits(ms, head, tailTurns, budget, newest, k) ==> boundary <= k
  }

  /* ---- facts about turns ---- */

  lemma {:induction false} NoStartsBetween(ms: seq<Message>, i: nat, j: nat)
    requires i <= j <= |ms| && forall k :: i <= k < j ==> !StartsTurn(ms[k])
    ensures CountStarts(ms, i) == CountStarts(ms, j)
    decreases j - i
  {
    hide StartsTurn;
    if i < j {
      NoStartsBetween(ms, i + 1, j);
    }
  }

  /** Every position of turn `j` touches that turn and the newer ones. */
  lemma {:induction false} TouchedInTurn(ms: seq<Message>, from: nat, turns: seq<Turn>, j: nat, k: nat)
    requires TurnsOf(ms, from, turns, |ms|) && j < |turns| && turns[j].start <= k < turns[j].end
    ensures Touched(ms, k) == |turns| - j
    decreases |turns| - j
  {
    hide StartsTurn;
    var t := turns[j];
    if j + 1 < |turns| {
      TouchedInTurn(ms, from, turns, j + 1, turns[j + 1].start);
    }
    NoStartsBetween(ms, t.start + 1, t.end);
    if k > t.start {
      NoStartsBetween(ms, k, t.end);
    }
  }

  lemma {:induction false} TurnHolding(ms: seq<Message>, from: nat, turns: seq<Turn>, k: nat, bound: nat) returns (j: nat)
    requires TurnsOf(ms, from, turns, |ms|) && bound < |turns| && turns[0].start <= k < turns[bound].end
    ensures j <= bound && turns[j].start <= k < turns[j].end
  {
    hide StartsTurn;
    if turns[bound].start <= k {
      j := bound;
    } else {
      j := TurnHolding(ms, from, turns, k, bound - 1);
    }
  }

  /** Once the cap is reached, every older boundary touches one turn too many. */
  lemma CapReached(ms: seq<Message>, from: nat, turns: seq<Turn>, i: nat, tailTurns: int, k: nat)
    requires TurnsOf(ms, from, turns, |ms|) && i + 1 < |turns| && |turns| - (i + 1) >= tailTurns
    requires turns[0].start <= k < turns[i + 1].start
    ensures Touched(ms, k) > tailTurns
  {
    hide StartsTurn;
    var j := TurnHolding(ms, from, turns, k, i);
    TouchedInTurn(ms, from, turns, j, k);
  }

  /* ---- the two walks ---- */

  /** The farthest-back index of the turn whose suffix still fits, or -1. */
  method SplitTurnToBudget(messages: seq<Message>, turn: Turn, remaining: int) returns (keepFrom: int)
    requires turn.start < turn.end <= |messages|
    ensures keepFrom == -1 || turn.start <= keepFrom < turn.end
    ensures keepFrom >= 0 ==> Estimate(messages[keepFrom..turn.end]) <= remaining
    ensures forall k :: turn.start <= k < (if keepFrom < 0 then turn.end else keepFrom) ==>
      Estimate(messages[k..turn.end]) > remaining
  {
    hide MessageTokens;
    keepFrom := turn.end;
    var used := 0;
    var i := turn.end;
    while i > turn.start
      invariant turn.start <= i == keepFrom <= turn.end
      invariant used == Estimate(messages[i..turn.end])
      invariant i < turn.end ==> used <= remaining
    {
      var msgTokens := EstimateTokens(messages[i - 1..i]);
      assert messages[i - 1..turn.end] == messages[i - 1..i] + messages[i..turn.end];
      EstimateConcat(messages[i - 1..i], messages[i..turn.end]);
      if used + msgTokens > remaining {
        break;
      }
      i := i - 1;
      keepFrom := i;
      used := used + msgTokens;
    }
    if turn.start < i {
      forall k | turn.start <= k < i ensures Estimate(messages[k..turn.end]) > remaining {
        SlicesGrow(messages, k, i - 1, turn.end);
      }
    }
    if keepFrom == turn.end {
      keepFrom := -1;
    }
  }

  lemma SlicesGrow(ms: seq<Message>, i: nat, j: nat, end: nat)
    requires i <= j <= end <= |ms|
    ensures Estimate(ms[i..end]) >= Estimate(ms[j..end])
  {
    assert ms[i..end] == ms[i..j] + ms[j..end];
    EstimateConcat(ms[i..j], ms[j..end]);
  }

  /** Keeping the turns from `i` on is the plan when they fit and no older boundary can. */
  lemma WholeTurnsArePlan(ms: seq<Message>, head: nat, turns: seq<Turn>, i: nat, tailTurns: int, budget: int)
    requires TurnsOf(ms, head, turns, |ms|) && i < |turns|
    requires tailTurns > 0 ==> |turns| - i <= tailTurns
    requires i == 0 || (tailTurns > 0 && |turns| - i >= tailTurns)
    requires Estimate(ms[turns[i].start..]) <= Max(budget, Estimate(ms[turns[|turns| - 1].start..]))
    ensures IsPlan(ms, head, tailTurns, budget, turns[|turns| - 1].start, turns[i].start)
  {
    hide StartsTurn, Estimate, CountStarts;
    var boundary, newest := turns[i].start, turns[|turns| - 1].start;
    TouchedInTurn(ms, head, turns, i, boundary);
    forall k: nat | Fits(ms, head, tailTurns, budget, newest, k) ensures boundary <= k {
      if i > 0 && turns[0].start <= k < boundary {
        CapReached(ms, head, turns, i - 1, tailTurns, k);
      }
    }
  }

  lemma TurnAt(ms: seq<Message>, head: nat, turns: seq<Turn>, k: nat)
    requires TurnsOf(ms, head, turns, |ms|) && k < |turns|
    ensures head <= turns[k].start < turns[k].end <= |ms|
    ensures turns[k].end == if k + 1 < |turns| then turns[k + 1].start else |ms|
    ensures turns[k].start <= turns[|turns| - 1].start
    ensures HasTurn(ms, head) && IsNewest(ms, head, turns[|turns| - 1].start)
    decreases |turns| - k
  {
    hide StartsTurn;
    if k + 1 < |turns| {
      TurnAt(ms, head, turns, k + 1);
    }
  }

  /** Walks the turns newest to oldest, then splits the first one that does not fit. The
      newest turn always stays whole. With no turn after the head everything is kept. */
  method PlanTail(messages: seq<Message>, headLimit: nat, tailTurns: int, budget: int)
    returns (boundary: nat, ghost newest: nat)
    requires headLimit <= |messages|
    ensures messages == [] ==> boundary == 0
    ensures messages != [] && !HasTurn(messages, headLimit) ==> boundary == |messages|
    ensures HasTurn(messages, headLimit) ==>
      && IsNewest(messages, headLimit, newest)
      && IsPlan(messages, headLimit, tailTurns, budget, newest, boundary)
      && boundary <= newest
  {
    hide StartsTurn, Estimate, Fits, IsPlan;
    newest := 0;
    if |messages| == 0 {
      return 0, 0;
    }
    var turns := SplitTurns(messages, headLimit);
    if |turns| == 0 {
      return |messages|, 0;
    }
    hide TurnsOf, IsNewest, HasTurn;
    var last := turns[|turns| - 1];
    newest := last.start;
    TurnAt(messages, headLimit, turns, |turns| - 1);
    assert messages[last.start..last.end] == messages[newest..];
    var mandatoryTokens := EstimateTokens(messages[last.start..last.end]);
    var remaining := budget;
    if remaining < mandatoryTokens {
      remaining := mandatoryTokens;
    }
    var keptStart := last.start;
    var keptTurns := 1;
    remaining := remaining - mandatoryTokens;

    var i := |turns| - 1;
    while i > 0
      invariant 0 <= i < |turns|
      invariant keptStart == turns[i].start <= newest <= |messages|
      invariant keptTurns == |turns| - i
      invariant tailTurns > 0 ==> keptTurns <= tailTurns
      invariant remaining == Max(budget, Estimate(messages[newest..])) - Estimate(messages[keptStart..]) >= 0
    {
      if tailTurns > 0 && keptTurns >= tailTurns {
        break;
      }
      // The program also stops at a turn that starts before headLimit; SplitTurns yields none.
      var t := turns[i - 1];
      TurnAt(messages, headLimit, turns, i - 1);
      var size := EstimateTokens(messages[t.start..t.end]);
      EstimateSplit(messages, t.start, t.end);
      if size > remaining {
        boundary := SplitOldest(messages, headLimit, turns, i, remaining, tailTurns, budget);
        return;
      }
      i := i - 1;
      keptStart := t.start;
      remaining := remaining - size;
      keptTurns := keptTurns + 1;
    }
    WholeTurnsArePlan(messages, headLimit, turns, i, tailTurns, budget);
    boundary := keptStart;
  }

  /** The turn before turn `i` does not fit whole; keep its newest suffix that does. */
  method SplitOldest(messages: seq<Message>, headLimit: nat, turns: seq<Turn>, i: nat, remaining: int,
                     tailTurns: int, budget: int)
    returns (boundary: nat)
    requires headLimit <= |messages| && TurnsOf(messages, headLimit, turns, |messages|) && 0 < i < |turns|
    requires tailTurns > 0 ==> |turns| - i < tailTurns
    requires remaining == Max(budget, Estimate(messages[turns[|turns| - 1].start..])) - Estimate(messages[turns[i].start..])
    requires 0 <= remaining < Estimate(messages[turns[i - 1].start..turns[i - 1].end])
    ensures boundary <= turns[i].start
    ensures IsPlan(messages, headLimit, tailTurns, budget, turns[|turns| - 1].start, boundary)
  {
    hide StartsTurn, Estimate, CountStarts;
    var t := turns[i - 1];
    ghost var newest := turns[|turns| - 1].start;
    var split := SplitTurnToBudget(messages, t, remaining);
    boundary := if split >= 0 then split else turns[i].start;
    if split >= 0 {
      TouchedInTurn(messages, headLimit, turns, i - 1, boundary);
    } else {
      TouchedInTurn(messages, headLimit, turns, i, boundary);
    }
    EstimateSplit(messages, boundary, t.end);
    assert messages[t.end..t.end] == [];
    forall k: nat | Fits(messages, headLimit, tailTurns, budget, newest, k) ensures boundary <= k {
      if k < boundary {
        var from: nat := if k < t.start then t.start else k;
        SuffixesGrow(messages, k, from);
        EstimateSplit(messages, from, t.end);
      }
    }
  }

  const MIN_TAIL_TOKEN_BUDGET := 2000
  const MAX_TAIL_TOKEN_BUDGET := 15000

  /** A quarter of the window, clamped; nothing for an unknown window. */
  function TailTokenBudget(contextWindow: int): (budget: int)
    ensures contextWindow > 0 ==> MIN_TAIL_TOKEN_BUDGET <= budget <= MAX_TAIL_TOKEN_BUDGET
    ensures contextWindow <= 0 ==> budget == 0
    ensures 4 * MIN_TAIL_TOKEN_BUDGET <= contextWindow <= 4 * MAX_TAIL_TOKEN_BUDGET
      ==> 4 * budget <= contextWindow < 4 * budget + 4
    ensures 0 < contextWindow < 4 * MIN_TAIL_TOKEN_BUDGET ==> budget == MIN_TAIL_TOKEN_BUDGET
    ensures contextWindow > 4 * MAX_TAIL_TOKEN_BUDGET ==> budget == MAX_TAIL_TOKEN_BUDGET
  {
    if contextWindow <= 0 then 0
    else
      var quarter := contextWindow / 4;
      if quarter < MIN_TAIL_TOKEN_BUDGET then MIN_TAIL_TOKEN_BUDGET
      else if quarter > MAX_TAIL_TOKEN_BUDGET then MAX_TAIL_TOKEN_BUDGET
      else quarter
  }
}
