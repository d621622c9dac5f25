/** The message transcript of a run: roles, tool calls, the token estimate, and what
    a strict provider accepts. */
module Transcript {
  import opened Text

  datatype Role = System | User | Assistant | Tool

  datatype ToolCall = ToolCall(id: string, name: string, arguments: string)

  datatype Message = Message(
    role: Role,
    content: string,
    toolCalls: seq<ToolCall>,
    toolCallId: string,
    images: seq<string>,
    reasoning: seq<string>)

  const IMAGE_TOKEN_ESTIMATE := 1000

  function UserText(content: string): Message {
    Message(User, content, [], "", [], [])
  }

  function ToolResult(id: string, content: string): Message {
    Message(Tool, content, [], id, [], [])
  }

  /* ---- token estimate ---- */

  function CallTokens(calls: seq<ToolCall>): nat {
    if calls == [] then 0
    else CallTokens(calls[..|calls| - 1]) + Tokens(calls[|calls| - 1].name) + Tokens(calls[|calls| - 1].arguments) + 4
  }

  function MessageTokens(m: Message): (t: nat)
    ensures t >= 4
  {
    Tokens(m.content) + CallTokens(m.toolCalls) + |m.images| * IMAGE_TOKEN_ESTIMATE + 4
  }

  function Estimate(ms: seq<Message>): nat {
    if ms == [] then 0 else Estimate(ms[..|ms| - 1]) + MessageTokens(ms[|ms| - 1])
  }

  method EstimateTokens(messages: seq<Message>) returns (total: nat)
    ensures total == Estimate(messages)
  {
    total := 0;
    for i := 0 to |messages|
      invariant total == Estimate(messages[..i])
    {
      var message := messages[i];
      ghost var before := total;
      var body := ApproxTextTokens(message.content);
      total := total + body;
      for j := 0 to |message.toolCalls|
        invariant total == before + Tokens(message.content) + CallTokens(message.toolCalls[..j])
      {
        var call := message.toolCalls[j];
        var name := ApproxTextTokens(call.name);
        var arguments := ApproxTextTokens(call.arguments);
        total := total + name + arguments + 4;
        assert message.toolCalls[..j + 1][..j] == message.toolCalls[..j];
      }
      assert message.toolCalls[..|message.toolCalls|] == message.toolCalls;
      total := total + |message.images| * IMAGE_TOKEN_ESTIMATE + 4;
      assert messages[..i + 1][..i] == messages[..i];
    }
    assert messages[..|messages|] == messages;
  }

  lemma {:induction false} EstimateConcat(a: seq<Message>, b: seq<Message>)
    ensures Estimate(a + b) == Estimate(a) + Estimate(b)
  {
    if b == [] {
      assert a + b == a;
    } else {
      assert (a + b)[..|a + b| - 1] == a + b[..|b| - 1];
      EstimateConcat(a, b[..|b| - 1]);
    }
  }

  lemma EstimateSplit(ms: seq<Message>, i: nat, j: nat)
    requires i <= j <= |ms|
    ensures Estimate(ms[i..]) == Estimate(ms[i..j]) + Estimate(ms[j..])
  {
    assert ms[i..] == ms[i..j] + ms[j..];
    EstimateConcat(ms[i..j], ms[j..]);
  }

  lemma EstimateOne(m: Message)
    ensures Estimate([m]) == MessageTokens(m)
  {
    assert [m][..0] == [];
  }

  lemma {:induction false} EstimateOfEdit(ms: seq<Message>, k: nat, m: Message)
    requires k < |ms|
    ensures Estimate(ms[k := m]) == Estimate(ms) - MessageTokens(ms[k]) + MessageTokens(m)
  {
    hide MessageTokens;
    var n := |ms| - 1;
    if k < n {
      EstimateOfEdit(ms[..n], k, m);
      assert ms[k := m][..n] == ms[..n][k := m];
    } else {
      assert ms[k := m][..n] == ms[..n];
    }
  }

  lemma CallsSnoc(calls: seq<ToolCall>, c: ToolCall)
    ensures CallTokens(calls + [c]) == CallTokens(calls) + Tokens(c.name) + Tokens(c.arguments) + 4
  {
    hide Tokens;
    assert (calls + [c])[..|calls|] == calls;
  }

  /** What each part of a history costs: a text its tokens, a call those of its name and
      arguments and four more, an image a thousand, and a message four by itself. */
  lemma EstimateOfParts(ms: seq<Message>, k: nat, text: string, c: ToolCall, image: string, role: Role, id: string, reasoning: seq<string>)
    requires k < |ms|
    ensures Estimate(ms[k := ms[k].(content := text)]) == Estimate(ms) - Tokens(ms[k].content) + Tokens(text)
    ensures Estimate(ms[k := ms[k].(toolCalls := ms[k].toolCalls + [c])])
      == Estimate(ms) + Tokens(c.name) + Tokens(c.arguments) + 4
    ensures Estimate(ms[k := ms[k].(images := ms[k].images + [image])]) == Estimate(ms) + 1000
    ensures Estimate(ms + [Message(role, "", [], id, [], reasoning)]) == Estimate(ms) + 4
    ensures Estimate([]) == 0
  {
    hide Tokens;
    EstimateOfEdit(ms, k, ms[k].(content := text));
    EstimateOfEdit(ms, k, ms[k].(toolCalls := ms[k].toolCalls + [c]));
    EstimateOfEdit(ms, k, ms[k].(images := ms[k].images + [image]));
    CallsSnoc(ms[k].toolCalls, c);
    EstimateConcat(ms, [Message(role, "", [], id, [], reasoning)]);
    EstimateOne(Message(role, "", [], id, [], reasoning));
    EmptyIsFree();
  }

  lemma EmptyIsFree()
    ensures Tokens("") == 0
  {
  }

  /** Every message costs at least four tokens, so longer suffixes cost strictly more. */
  lemma SuffixesGrow(ms: seq<Message>, i: nat, j: nat)
    requires i <= j <= |ms|
    ensures Estimate(ms[i..]) >= Estimate(ms[j..]) + 4 * (j - i)
    decreases j - i
  {
    if i < j {
      SuffixesGrow(ms, i + 1, j);
      EstimateSplit(ms, i, i + 1);
      assert ms[i..i + 1] == [ms[i]];
      EstimateOne(ms[i]);
    }
  }

  /* ---- what a strict provider accepts ---- */

  function CallIds(calls: seq<ToolCall>): (ids: seq<string>)
    ensures |ids| == |calls|
    ensures forall k :: 0 <= k < |calls| ==> ids[k] == calls[k].id
  {
    seq(|calls|, k requires 0 <= k < |calls| => calls[k].id)
  }

  /** What a reader of the transcript expects next: whether system messages are still
      allowed, and which tool-call ids are still owed a result. */
  datatype Expect = Rejected | Expect(head: bool, owed: seq<string>)

  function Read(st: Expect, m: Message): Expect {
    match st
    case Rejected => Rejected
    case Expect(head, owed) =>
      match m.role
      case System => if head && owed == [] then st else Rejected
      case User => if owed == [] then Expect(false, []) else Rejected
      case Assistant => if owed == [] then Expect(false, CallIds(m.toolCalls)) else Rejected
      case Tool => if owed != [] && m.toolCallId == owed[0] then Expect(head, owed[1..]) else Rejected
  }

  function Scan(st: Expect, ms: seq<Message>): Expect {
    if ms == [] then st else Read(Scan(st, ms[..|ms| - 1]), ms[|ms| - 1])
  }

  const START := Expect(true, [])

  /** Nothing rejected and nothing left unanswered. */
  predicate WellFormed(ms: seq<Message>) {
    var st := Scan(START, ms);
    st.Expect? && st.owed == []
  }

  lemma {:induction false} ScanConcat(st: Expect, a: seq<Message>, b: seq<Message>)
    ensures Scan(st, a + b) == Scan(Scan(st, a), b)
  {
    if b == [] {
      assert a + b == a;
    } else {
      assert (a + b)[..|a + b| - 1] == a + b[..|b| - 1];
      ScanConcat(st, a, b[..|b| - 1]);
    }
  }

  lemma {:induction false} RejectedStays(ms: seq<Message>)
    ensures Scan(Rejected, ms) == Rejected
  {
    if ms != [] {
      RejectedStays(ms[..|ms| - 1]);
    }
  }

  /** A prefix of an accepted transcript is never rejected. */
  lemma PrefixNotRejected(ms: seq<Message>, k: nat)
    requires WellFormed(ms) && k <= |ms|
    ensures Scan(START, ms[..k]).Expect?
  {
    assert ms == ms[..k] + ms[k..];
    ScanConcat(START, ms[..k], ms[k..]);
    RejectedStays(ms[k..]);
  }

  /** User messages at the end neither repair nor break a transcript. */
  lemma {:induction false} UserMessagesKeep(ms: seq<Message>, more: seq<Message>)
    requires forall k :: 0 <= k < |more| ==> more[k].role == User
    ensures WellFormed(ms + more) <==> WellFormed(ms)
  {
    if more == [] {
      assert ms + more == ms;
    } else {
      var n := |more| - 1;
      assert ms + more == (ms + more[..n]) + [more[n]];
      assert (ms + more)[..|ms + more| - 1] == ms + more[..n];
      UserMessagesKeep(ms, more[..n]);
    }
  }

  /** A run of tool messages is accepted exactly when it answers the owed calls in order. */
  lemma {:induction false} ReadResults(head: bool, owed: seq<string>, results: seq<Message>)
    requires |results| <= |owed| && forall k :: 0 <= k < |results| ==> results[k].role == Tool
    ensures Scan(Expect(head, owed), results) ==
      if forall k :: 0 <= k < |results| ==> results[k].toolCallId == owed[k]
      then Expect(head, owed[|results|..]) else Rejected
  {
    if results != [] {
      var n := |results| - 1;
      ReadResults(head, owed, results[..n]);
      assert (forall k :: 0 <= k < n ==> results[k].toolCallId == owed[k]) ==> owed[n..] != [] && owed[n..][0] == owed[n];
    }
  }

  /** Rewriting bodies and arguments leaves what the provider checks alone. */
  predicate SameFrame(m: Message, m': Message) {
    m'.role == m.role && m'.toolCallId == m.toolCallId && CallIds(m'.toolCalls) == CallIds(m.toolCalls)
  }

  predicate SameFrames(ms: seq<Message>, ms': seq<Message>) {
    |ms'| == |ms| && forall k :: 0 <= k < |ms| ==> SameFrame(ms[k], ms'[k])
  }

  lemma {:induction false} SameFramesScan(st: Expect, ms: seq<Message>, ms': seq<Message>)
    requires SameFrames(ms, ms')
    ensures Scan(st, ms') == Scan(st, ms)
  {
    if ms != [] {
      var n := |ms| - 1;
      SameFramesScan(st, ms[..n], ms'[..n]);
      assert SameFrame(ms[n], ms'[n]);
    }
  }

  /* ---- the same property, declared position by position ---- */

  predicate SystemPrefix(ms: seq<Message>) {
    forall i, j :: 0 <= i < j < |ms| && ms[j].role == System ==> ms[i].role == System
  }

  /** Call `j` of the assistant at `i` is answered at position `i + 1 + j`. */
  predicate AnsweredAt(ms: seq<Message>, i: nat, j: nat)
    requires i < |ms| && j < |ms[i].toolCalls|
  {
    i + 1 + j < |ms| && ms[i + 1 + j].role == Tool && ms[i + 1 + j].toolCallId == ms[i].toolCalls[j].id
  }

  predicate AllAnswered(ms: seq<Message>) {
    forall i, j :: 0 <= i < |ms| && ms[i].role == Assistant && 0 <= j < |ms[i].toolCalls| ==> AnsweredAt(ms, i, j)
  }

  /** The assistant at `i` owns position `k`: `k` is one of its results. */
  predicate Owns(ms: seq<Message>, i: nat, k: nat)
    requires i < |ms|
  {
    ms[i].role == Assistant && i < k <= i + |ms[i].toolCalls|
  }

  predicate NoStrayResults(ms: seq<Message>) {
    forall k :: 0 <= k < |ms| && ms[k].role == Tool ==> exists i :: 0 <= i < k && Owns(ms, i, k)
  }

  predicate ProviderValid(ms: seq<Message>) {
    SystemPrefix(ms) && AllAnswered(ms) && NoStrayResults(ms)
  }

  /** What the reader's state says about the first `k` messages. */
  ghost predicate ReaderAt(ms: seq<Message>, k: nat, st: Expect)
    requires k <= |ms|
  {
    && st.Expect?
    && (st.head <==> forall i :: 0 <= i < k ==> ms[i].role == System)
    && (forall i :: 0 <= i < k && Owns(ms, i, k) ==> st.owed == CallIds(ms[i].toolCalls)[k - i - 1..])
    && (st.owed != [] ==> exists i :: 0 <= i < k && Owns(ms, i, k))
  }

  ghost predicate PrefixValid(ms: seq<Message>, k: nat)
    requires k <= |ms|
  {
    && (forall i, j :: 0 <= i < j < k && ms[j].role == System ==> ms[i].role == System)
    && (forall i, j :: 0 <= i < k && ms[i].role == Assistant && 0 <= j < |ms[i].toolCalls| && i + 1 + j < k
          ==> AnsweredAt(ms, i, j))
    && (forall t :: 0 <= t < k && ms[t].role == Tool ==> exists i :: 0 <= i < t && Owns(ms, i, t))
  }

  lemma ScanStep(ms: seq<Message>, k: nat)
    requires k < |ms|
    ensures Scan(START, ms[..k + 1]) == Read(Scan(START, ms[..k]), ms[k])
  {
    assert ms[..k + 1][..k] == ms[..k];
  }

  /** One read keeps the reader's state meaningful. */
  lemma ReaderStep(ms: seq<Message>, k: nat, st: Expect)
    requires k < |ms| && ReaderAt(ms, k, st) && Read(st, ms[k]).Expect?
    ensures ReaderAt(ms, k + 1, Read(st, ms[k]))
  {
    var st' := Read(st, ms[k]);
    forall i | 0 <= i < k + 1 && Owns(ms, i, k + 1)
      ensures st'.owed == CallIds(ms[i].toolCalls)[k + 1 - i - 1..]
    {
      if i < k {
        assert Owns(ms, i, k);
      }
    }
    if st'.owed != [] {
      if ms[k].role == Assistant {
        assert Owns(ms, k, k + 1);
      } else {
        var i :| 0 <= i < k && Owns(ms, i, k);
        assert Owns(ms, i, k + 1);
      }
    }
  }

  /** The positions an accepted prefix gains with one more message. */
  lemma PrefixStep(ms: seq<Message>, k: nat, st: Expect)
    requires k < |ms| && ReaderAt(ms, k, st) && PrefixValid(ms, k) && Read(st, ms[k]).Expect?
    ensures PrefixValid(ms, k + 1)
  {
    forall i, j | 0 <= i < k + 1 && ms[i].role == Assistant && 0 <= j < |ms[i].toolCalls| && i + 1 + j < k + 1
      ensures AnsweredAt(ms, i, j)
    {
      if i + 1 + j == k {
        assert Owns(ms, i, k);
      }
    }
  }

  lemma {:induction false} AcceptedPrefix(ms: seq<Message>, k: nat)
    requires k <= |ms| && Scan(START, ms[..k]).Expect?
    ensures ReaderAt(ms, k, Scan(START, ms[..k])) && PrefixValid(ms, k)
  {
    if k > 0 {
      ScanStep(ms, k - 1);
      AcceptedPrefix(ms, k - 1);
      ReaderStep(ms, k - 1, Scan(START, ms[..k - 1]));
      PrefixStep(ms, k - 1, Scan(START, ms[..k - 1]));
    }
  }

  lemma {:induction false} ValidIsRead(ms: seq<Message>, k: nat)
    requires ProviderValid(ms) && k <= |ms|
    ensures ReaderAt(ms, k, Scan(START, ms[..k]))
  {
    if k > 0 {
      var n := k - 1;
      ScanStep(ms, n);
      ValidIsRead(ms, n);
      var st := Scan(START, ms[..n]);
      if st.owed != [] {
        var i :| 0 <= i < n && Owns(ms, i, n);
        assert AnsweredAt(ms, i, n - i - 1);
      }
      if ms[n].role == Tool {
        var i :| 0 <= i < n && Owns(ms, i, n);
        assert AnsweredAt(ms, i, n - i - 1);
      }
      ReaderStep(ms, n, st);
    }
  }

  /** The one-pass reader accepts exactly the transcripts whose system messages lead,
      whose calls are each answered at once and in order, and which hold no other result. */
  lemma WellFormedIffProviderValid(ms: seq<Message>)
    ensures WellFormed(ms) <==> ProviderValid(ms)
  {
    var n := |ms|;
    assert ms[..n] == ms;
    if WellFormed(ms) {
      AcceptedPrefix(ms, n);
      forall i, j | 0 <= i < n && ms[i].role == Assistant && 0 <= j < |ms[i].toolCalls|
        ensures AnsweredAt(ms, i, j)
      {
        assert !Owns(ms, i, n);
      }
    }
    if ProviderValid(ms) {
      ValidIsRead(ms, n);
      forall i | 0 <= i < n && ms[i].role == Assistant
        ensures i + |ms[i].toolCalls| < n
      {
        if |ms[i].toolCalls| > 0 {
          assert AnsweredAt(ms, i, |ms[i].toolCalls| - 1);
        }
      }
    }
  }
}
