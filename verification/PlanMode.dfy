/** The exit_plan_mode tool, and what its one answer without an id does to the transcript. */
module PlanMode {
  import opened Text
  import opened Transcript
  import opened TurnLoop

  const NOT_ACTIVE := "exit_plan_mode has no effect: plan mode is not active."
  const NOBODY_TO_ASK :=
    "No interactive user is available to approve the plan; keep planning and finish with the plan in your reply."
  const PLAN_APPROVED :=
    "Plan approved. Plan mode ends and execution begins on the next turn; do not attempt edits in this turn."
  const PLAN_DECLINED :=
    "The user chose to keep planning. Refine the plan and call exit_plan_mode again when it is ready."

  /** What asking the user gives back: an error, when the prompt is canceled or times out, or
      the answers. */
  datatype Reply = PromptError | Answers(answers: seq<string>)

  predicate SaysYes(answers: seq<string>) {
    answers != [] && HasPrefix(ToLower(TrimSpace(answers[0])), "yes")
  }

  /** The answer is yes exactly when the first one opens with those three letters, in either
      case, after any white space. */
  lemma SaysYesIff(answers: seq<string>)
    ensures SaysYes(answers) <==>
      && answers != []
      && var t := TrimSpace(answers[0]);
         |t| >= 3 && t[0] in ['y', 'Y'] && t[1] in ['e', 'E'] && t[2] in ['s', 'S']
  {
    hide TrimSpace;
    if answers != [] {
      var t := TrimSpace(answers[0]);
      var lower := ToLower(t);
      if |t| >= 3 {
        assert lower[..3] == [LowerByte(t[0]), LowerByte(t[1]), LowerByte(t[2])];
      }
      if "yes" <= lower {
        assert lower[0] == 'y' && lower[1] == 'e' && lower[2] == 's';
      }
    }
  }

  /** The prompt was shown and failed. */
  predicate PromptFailed(planMode: bool, ask: Option<Reply>) {
    planMode && ask == Some(PromptError)
  }

  /** Asks whether to leave plan mode; without anybody to ask the answer is no. `ask` is the
      reply, or nothing when no user is connected. */
  function ExitPlanMode(call: ToolCall, planMode: bool, ask: Option<Reply>): (e: Executed)
    ensures e.callId == call.id <==> !PromptFailed(planMode, ask) || call.id == ""
    ensures e.aborts <==> PromptFailed(planMode, ask)
    ensures e.approvesPlan <==> planMode && ask.Some? && ask.value.Answers? && SaysYes(ask.value.answers)
    ensures e.output == "" <==> e.aborts
    ensures e.aborts || e.output ==
      if e.approvesPlan then PLAN_APPROVED else if !planMode then NOT_ACTIVE else if ask.None? then NOBODY_TO_ASK else PLAN_DECLINED
    ensures e.images == []
  {
    if !planMode then Executed(call.id, NOT_ACTIVE, [], false, false)
    else if ask.None? then Executed(call.id, NOBODY_TO_ASK, [], false, false)
    else if ask.value.PromptError? then Executed("", "", [], true, false)
    else if SaysYes(ask.value.answers) then Executed(call.id, PLAN_APPROVED, [], false, true)
    else Executed(call.id, PLAN_DECLINED, [], false, false)
  }

  /** Call `k` asks to leave plan mode, and every other executed call answers under its id. */
  ghost predicate AsksToLeave(calls: seq<ToolCall>, executed: nat -> Executed, ran: nat, k: nat, planMode: bool, ask: Option<Reply>) {
    && k < ran <= |calls|
    && executed(k) == ExitPlanMode(calls[k], planMode, ask)
    && forall i :: 0 <= i < ran && i != k ==> executed(i).callId == calls[i].id
  }

  /** A failed prompt ends the batch at its call, as an aborted run. */
  lemma FailedPromptEndsBatch(calls: seq<ToolCall>, executed: nat -> Executed, canceled: nat -> bool, stops: nat -> bool,
                              ran: nat, end: Ending, k: nat, ask: Option<Reply>)
    requires StoppedAfter(executed, canceled, stops, |calls|, ran, end)
    requires AsksToLeave(calls, executed, ran, k, true, ask) && ask == Some(PromptError)
    ensures ran == k + 1 && end == Aborted
  {
    assert !GoesOn(executed, canceled, stops, k);
  }

  /** The transcript after such a batch is acceptable exactly when the prompt did not fail. */
  lemma PlanExitKeepsReplayIff(ms: seq<Message>, assistant: Message, executed: nat -> Executed, ran: nat, k: nat,
                               planMode: bool, ask: Option<Reply>)
    requires WellFormed(ms) && assistant.role == Assistant
    requires AsksToLeave(assistant.toolCalls, executed, ran, k, planMode, ask) && assistant.toolCalls[k].id != ""
    ensures WellFormed(ms + [assistant] + Answered(executed, ran) + AbortedResults(assistant.toolCalls[ran..]))
      <==> !PromptFailed(planMode, ask)
  {
    hide WellFormed, Answered, AbortedResults;
    BatchIsWellFormedIff(ms, assistant, executed, ran);
  }

  /** The refused transcript, for any acceptable history: one call, and its prompt fails. */
  lemma CanceledPromptBreaksReplay(ms: seq<Message>, text: string, call: ToolCall)
    requires WellFormed(ms) && call.id != ""
    ensures var failed := ExitPlanMode(call, true, Some(PromptError));
      !WellFormed(ms + [Message(Assistant, text, [call], "", [], [])] + [ResultOf(failed)])
  {
    hide WellFormed;
    var assistant := Message(Assistant, text, [call], "", [], []);
    var executed: nat -> Executed := k => ExitPlanMode(call, true, Some(PromptError));
    assert AsksToLeave([call], executed, 1, 0, true, Some(PromptError));
    PlanExitKeepsReplayIff(ms, assistant, executed, 1, 0, true, Some(PromptError));
    assert Answered(executed, 1) == [ResultOf(executed(0))];
    assert AbortedResults([call][1..]) == [];
    assert ms + [assistant] + [ResultOf(executed(0))] + [] == ms + [assistant] + [ResultOf(executed(0))];
  }
}
