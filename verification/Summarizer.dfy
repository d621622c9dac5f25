/** The summarizer: one provider call, or halves summarized apart and joined when the slice
    does not fit the provider's own window. */
module Summarizer {
  import opened Text
  import opened Transcript

  datatype Reply = Summary(text: string) | ContextLimit | Failure

  /** The provider's reply to the n-th call, whatever it is. */
  type Provider = (nat, seq<Message>) -> Reply

  function Combined(left: string, right: string): string {
    TrimSpace(left + "\n\n" + right)
  }

  /** The outcome, and the number of the next call. */
  function Summarize(ask: Provider, n: nat, ms: seq<Message>): (Reply, nat)
    decreases |ms|
  {
    var once := ask(n, ms);
    if once.Summary? || |ms| < 2 || once != ContextLimit then (once, n + 1)
    else
      var mid := |ms| / 2;
      var (left, n1) := Summarize(ask, n + 1, ms[..mid]);
      if !left.Summary? then (left, n1)
      else
        var (right, n2) := Summarize(ask, n1, ms[mid..]);
        if !right.Summary? then (right, n2)
        else
          var combined := Combined(left.text, right.text);
          var reduced := ask(n2, [UserText(combined)]);
          if reduced == ContextLimit then (Summary(combined), n2 + 1) else (reduced, n2 + 1)
  }

  /** At most 3n - 2 calls for n messages, whatever the provider answers. */
  lemma {:induction false} CallsBounded(ask: Provider, n: nat, ms: seq<Message>)
    requires ms != []
    ensures n < Summarize(ask, n, ms).1 <= n + 3 * |ms| - 2
    decreases |ms|
  {
    if ask(n, ms) == ContextLimit && |ms| >= 2 {
      var mid := |ms| / 2;
      CallsBounded(ask, n + 1, ms[..mid]);
      CallsBounded(ask, Summarize(ask, n + 1, ms[..mid]).1, ms[mid..]);
    }
  }

  /** A provider that takes one message at a time and no more. */
  function OneAtATime(text: string): Provider {
    (n: nat, ms: seq<Message>) => if |ms| < 2 then Summary(text) else ContextLimit
  }

  /** The bound is reached for every number of messages. */
  lemma {:induction false} BoundIsTight(text: string, n: nat, ms: seq<Message>)
    requires ms != []
    ensures Summarize(OneAtATime(text), n, ms).0.Summary?
    ensures Summarize(OneAtATime(text), n, ms).1 == n + 3 * |ms| - 2
    decreases |ms|
  {
    if |ms| >= 2 {
      var mid := |ms| / 2;
      BoundIsTight(text, n + 1, ms[..mid]);
      BoundIsTight(text, Summarize(OneAtATime(text), n + 1, ms[..mid]).1, ms[mid..]);
    }
  }

  /** A slice of the history and the number of the call that summarized it. */
  datatype Slice = Slice(call: nat, messages: seq<Message>)

  /** The slices that successful calls consumed whole, in order. */
  function Slices(ask: Provider, n: nat, ms: seq<Message>): seq<Slice>
    decreases |ms|
  {
    if ask(n, ms).Summary? then [Slice(n, ms)]
    else if |ms| < 2 || ask(n, ms) != ContextLimit then []
    else
      var mid := |ms| / 2;
      Slices(ask, n + 1, ms[..mid]) + Slices(ask, Summarize(ask, n + 1, ms[..mid]).1, ms[mid..])
  }

  function Joined(slices: seq<Slice>): seq<Message> {
    if slices == [] then [] else Joined(slices[..|slices| - 1]) + slices[|slices| - 1].messages
  }

  lemma {:induction false} JoinedConcat(a: seq<Slice>, b: seq<Slice>)
    ensures Joined(a + b) == Joined(a) + Joined(b)
  {
    if b == [] {
      assert a + b == a;
    } else {
      assert (a + b)[..|a + b| - 1] == a + b[..|b| - 1];
      JoinedConcat(a, b[..|b| - 1]);
    }
  }

  ghost predicate Consumed(ask: Provider, slices: seq<Slice>, from: nat, to: nat) {
    forall k :: 0 <= k < |slices| ==>
      from <= slices[k].call < to && slices[k].messages != [] && ask(slices[k].call, slices[k].messages).Summary?
  }

  /** Each call number is asked once along the run, in rising order. */
  ghost predicate Rising(slices: seq<Slice>) {
    forall j, k :: 0 <= j < k < |slices| ==> slices[j].call < slices[k].call
  }

  lemma ConsumedConcat(ask: Provider, a: seq<Slice>, b: seq<Slice>, from: nat, n1: nat, n2: nat, to: nat)
    requires Consumed(ask, a, from + 1, n1) && Consumed(ask, b, n1, n2) && Rising(a) && Rising(b)
    requires from < n1 && n1 <= n2 <= to
    ensures Consumed(ask, a + b, from, to) && Rising(a + b)
  {
  }

  /** A run that splits: where each half starts, and that the rest runs past both. */
  lemma Halves(ask: Provider, n: nat, ms: seq<Message>) returns (mid: nat, n1: nat, n2: nat)
    requires ask(n, ms) == ContextLimit && |ms| >= 2
    ensures 0 < mid < |ms|
    ensures n1 == Summarize(ask, n + 1, ms[..mid]).1 && n2 == Summarize(ask, n1, ms[mid..]).1
    ensures n + 1 < n1 < n2
    ensures Slices(ask, n, ms) == Slices(ask, n + 1, ms[..mid]) + Slices(ask, n1, ms[mid..])
    ensures Summarize(ask, n, ms).0.Summary? ==>
      Summarize(ask, n + 1, ms[..mid]).0.Summary? && Summarize(ask, n1, ms[mid..]).0.Summary? && n2 < Summarize(ask, n, ms).1
  {
    mid := |ms| / 2;
    n1 := Summarize(ask, n + 1, ms[..mid]).1;
    n2 := Summarize(ask, n1, ms[mid..]).1;
    CallsBounded(ask, n + 1, ms[..mid]);
    CallsBounded(ask, n1, ms[mid..]);
  }

  /** On success every message was summarized exactly once: the slices that successful
      calls consumed are non-empty, lie end to end, and make up the whole history. */
  lemma {:induction false} SuccessPartitions(ask: Provider, n: nat, ms: seq<Message>)
    requires ms != [] && Summarize(ask, n, ms).0.Summary?
    ensures Consumed(ask, Slices(ask, n, ms), n, Summarize(ask, n, ms).1) && Rising(Slices(ask, n, ms))
    ensures Joined(Slices(ask, n, ms)) == ms
    decreases |ms|
  {
    if ask(n, ms).Summary? {
      assert [Slice(n, ms)][..0] == [];
    } else {
      var mid, n1, n2 := Halves(ask, n, ms);
      var a, b := Slices(ask, n + 1, ms[..mid]), Slices(ask, n1, ms[mid..]);
      SuccessPartitions(ask, n + 1, ms[..mid]);
      SuccessPartitions(ask, n1, ms[mid..]);
      JoinedConcat(a, b);
      assert ms[..mid] + ms[mid..] == ms;
      ConsumedConcat(ask, a, b, n, n1, n2, Summarize(ask, n, ms).1);
    }
  }

  /** The text sums the messages up: the provider gave it for them as they are, or, from texts
      that sum up the two halves, for those joined, or they joined are it. */
  ghost predicate SumsUp(ask: Provider, ms: seq<Message>, text: string)
    decreases |ms|
  {
    || (exists n: nat :: ask(n, ms) == Summary(text))
    || (|ms| >= 2 && exists left, right ::
          SumsUpHalves(ask, ms, left, right) && FromBoth(ask, TrimSpace(left + "\n\n" + right), text))
  }

  ghost predicate SumsUpHalves(ask: Provider, ms: seq<Message>, left: string, right: string)
    requires |ms| >= 2
    decreases |ms|, 0
  {
    SumsUp(ask, ms[..|ms| / 2], left) && SumsUp(ask, ms[|ms| / 2..], right)
  }

  ghost predicate FromBoth(ask: Provider, joined: string, text: string) {
    exists n: nat ::
      || ask(n, [Message(User, joined, [], "", [], [])]) == Summary(text)
      || (ask(n, [Message(User, joined, [], "", [], [])]) == ContextLimit && text == joined)
  }

  /** A summary sums up all of the messages, the first half before the second. */
  lemma {:induction false} SummarySumsUp(ask: Provider, n: nat, ms: seq<Message>)
    requires Summarize(ask, n, ms).0.Summary?
    ensures SumsUp(ask, ms, Summarize(ask, n, ms).0.text)
    decreases |ms|
  {
    if !ask(n, ms).Summary? {
      var mid := |ms| / 2;
      var (left, n1) := Summarize(ask, n + 1, ms[..mid]);
      var (right, n2) := Summarize(ask, n1, ms[mid..]);
      SummarySumsUp(ask, n + 1, ms[..mid]);
      SummarySumsUp(ask, n1, ms[mid..]);
      assert SumsUpHalves(ask, ms, left.text, right.text);
      assert ask(n2, [Message(User, TrimSpace(left.text + "\n\n" + right.text), [], "", [], [])]) == ask(n2, [UserText(Combined(left.text, right.text))]);
      assert FromBoth(ask, TrimSpace(left.text + "\n\n" + right.text), Summarize(ask, n, ms).0.text);
    }
  }

  /** An error that surfaces is one the provider gave, at the last call of the run: a failed
      call, or a single message that does not fit. */
  lemma {:induction false} ErrorsAreTheProviders(ask: Provider, n: nat, ms: seq<Message>)
    returns (call: nat, asked: seq<Message>)
    requires ms != [] && !Summarize(ask, n, ms).0.Summary?
    ensures n <= call == Summarize(ask, n, ms).1 - 1 && ask(call, asked) == Summarize(ask, n, ms).0
    ensures ask(call, asked) == ContextLimit ==> |asked| == 1 && asked[0] in ms
    decreases |ms|
  {
    if ask(n, ms) != ContextLimit || |ms| < 2 {
      call, asked := n, ms;
    } else {
      var mid := |ms| / 2;
      var (left, n1) := Summarize(ask, n + 1, ms[..mid]);
      CallsBounded(ask, n + 1, ms[..mid]);
      if !left.Summary? {
        call, asked := ErrorsAreTheProviders(ask, n + 1, ms[..mid]);
      } else {
        var (right, n2) := Summarize(ask, n1, ms[mid..]);
        CallsBounded(ask, n1, ms[mid..]);
        if !right.Summary? {
          call, asked := ErrorsAreTheProviders(ask, n1, ms[mid..]);
        } else {
          call, asked := n2, [UserText(Combined(left.text, right.text))];
        }
      }
    }
  }
}
