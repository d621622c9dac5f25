/** Parallel read-ahead: which calls may run together, and why running them together
    changes nothing that can be seen. */
module ParallelTools {
  import opened Text
  import opened Transcript

  /** The tool registry's verdicts: whether a call may run concurrently, and the resources
      it names. */
  datatype Registry = Registry(safe: ToolCall -> bool, keys: ToolCall -> seq<string>)

  predicate Conflict(a: seq<string>, b: seq<string>) {
    exists key :: key in a && key in b && key != ""
  }

  method ResourceKeysConflict(a: seq<string>, b: seq<string>) returns (conflict: bool)
    ensures conflict <==> Conflict(a, b)
  {
    if |a| == 0 || |b| == 0 {
      return false;
    }
    var seen: set<string> := {};
    for i := 0 to |a|
      invariant forall key :: key in seen <==> key != "" && key in a[..i]
    {
      if a[i] != "" {
        seen := seen + {a[i]};
      }
    }
    for i := 0 to |b|
      invariant forall k :: 0 <= k < i ==> b[k] !in seen
    {
      if b[i] != "" && b[i] in seen {
        assert a[..|a|] == a;
        assert b[i] in a && b[i] in b;
        return true;
      }
    }
    assert a[..|a|] == a;
    conflict := false;
  }

  /** Concurrent-safe calls from `start` to `end`, no two of which name a common resource. */
  ghost predicate SafeRun(r: Registry, calls: seq<ToolCall>, start: nat, end: nat) {
    && start <= end <= |calls|
    && (forall k :: start <= k < end ==> r.safe(calls[k]))
    && (forall j, k :: start <= j < k < end ==> !Conflict(r.keys(calls[j]), r.keys(calls[k])))
  }

  /** The longest safe run from `start`: one more call would break it. */
  method ExtendParallelRun(r: Registry, calls: seq<ToolCall>, start: nat) returns (end: nat)
    requires start <= |calls|
    ensures SafeRun(r, calls, start, end)
    ensures forall longer :: end < longer ==> !SafeRun(r, calls, start, longer)
  {
    if start >= |calls| || !r.safe(calls[start]) {
      return start;
    }
    end := start + 1;
    var keysWindow := [r.keys(calls[start])];
    while end < |calls|
      invariant start < end <= |calls| && SafeRun(r, calls, start, end)
      invariant |keysWindow| == end - start
      invariant forall k :: start <= k < end ==> keysWindow[k - start] == r.keys(calls[k])
    {
      if !r.safe(calls[end]) {
        break;
      }
      var nextKeys := r.keys(calls[end]);
      var conflict := false;
      for k := 0 to |keysWindow|
        invariant forall j :: 0 <= j < k ==> !Conflict(keysWindow[j], nextKeys)
      {
        conflict := ResourceKeysConflict(keysWindow[k], nextKeys);
        if conflict {
          assert Conflict(r.keys(calls[start + k]), r.keys(calls[end]));
          return;
        }
      }
      forall j | start <= j < end ensures !Conflict(r.keys(calls[j]), r.keys(calls[end])) {
        assert keysWindow[j - start] == r.keys(calls[j]);
      }
      keysWindow := keysWindow + [nextKeys];
      end := end + 1;
    }
  }

  /* ---- sequential execution ---- */

  /** Executing a call in a world gives the next world and a result. */
  type Execute<!W, R> = (W, ToolCall) -> (W, R)

  function WorldAfter<W, R>(execute: Execute<W, R>, w: W, calls: seq<ToolCall>, n: nat): W
    requires n <= |calls|
  {
    if n == 0 then w else execute(WorldAfter(execute, w, calls, n - 1), calls[n - 1]).0
  }

  function ResultAt<W, R>(execute: Execute<W, R>, w: W, calls: seq<ToolCall>, i: nat): R
    requires i < |calls|
  {
    execute(WorldAfter(execute, w, calls, i), calls[i]).1
  }

  /** Concurrent-safe calls only look at the world. */
  ghost predicate ReadOnly<W(!new), R>(execute: Execute<W, R>, r: Registry) {
    forall w, call :: r.safe(call) ==> execute(w, call).0 == w
  }

  lemma {:induction false} SafeCallsLeaveTheWorld<W(!new), R>(execute: Execute<W, R>, r: Registry, w: W, calls: seq<ToolCall>,
                                                        start: nat, k: nat)
    requires ReadOnly(execute, r) && start <= k <= |calls| && forall j :: start <= j < k ==> r.safe(calls[j])
    ensures WorldAfter(execute, w, calls, k) == WorldAfter(execute, w, calls, start)
  {
    if k > start {
      SafeCallsLeaveTheWorld(execute, r, w, calls, start, k - 1);
    }
  }

  /* ---- the concurrent batch ---- */

  /** An order in which the calls of a run may take effect: each of them once. */
  ghost predicate CompletionOrder(order: seq<nat>, start: nat, end: nat) {
    && (forall t :: 0 <= t < |order| ==> start <= order[t] < end)
    && (forall s, t :: 0 <= s < t < |order| ==> order[s] != order[t])
    && (forall k: nat :: start <= k < end ==> k in order)
  }

  /** Runs the calls in any completion order; each writes its own slot. */
  method ExecuteParallelReadBatch<W(!new), R>(execute: Execute<W, R>, r: Registry, world: W, calls: seq<ToolCall>,
                                          start: nat, end: nat, order: seq<nat>)
    returns (results: seq<R>, world': W, ghost runs: multiset<nat>)
    requires SafeRun(r, calls, start, end) && start < end && ReadOnly(execute, r) && CompletionOrder(order, start, end)
    ensures world' == world
    ensures |results| == end - start
    ensures forall i :: 0 <= i < end - start ==> results[i] == execute(world, calls[start + i]).1
    ensures forall k: nat :: runs[k] == if start <= k < end then 1 else 0
  {
    world' := world;
    runs := multiset{};
    var slots: seq<Option<R>> := seq(end - start, _ => None);
    for t := 0 to |order|
      invariant world' == world && |slots| == end - start
      invariant forall i: nat :: i < end - start && start + i in order[..t] ==> slots[i] == Some(execute(world, calls[start + i]).1)
      invariant forall k: nat :: runs[k] == if k in order[..t] then 1 else 0
    {
      var index := order[t];
      var (next, result) := execute(world', calls[index]);
      assert next == world;
      world' := next;
      slots := slots[index - start := Some(result)];
      runs := runs + multiset{index};
      FreshIndex(order, t);
    }
    assert order[..|order|] == order;
    forall i: nat | i < end - start ensures slots[i] == Some(execute(world, calls[start + i]).1) {
      assert start + i in order;
    }
    results := seq(end - start, i requires 0 <= i < end - start => slots[i].value);
  }

  lemma FreshIndex(order: seq<nat>, t: nat)
    requires t < |order| && forall s, u :: 0 <= s < u < |order| ==> order[s] != order[u]
    ensures order[t] !in order[..t]
    ensures forall k: nat :: k in order[..t + 1] <==> k in order[..t] || k == order[t]
  {
    assert order[..t + 1] == order[..t] + [order[t]];
  }

  /* ---- the batch loop with read-ahead ---- */

  /** The loop leaves after the first call whose result ends the run. */
  ghost predicate LeavesAfter<W, R>(execute: Execute<W, R>, w: W, calls: seq<ToolCall>, ends: (nat, R) -> bool, ran: nat) {
    && ran <= |calls|
    && (forall k: nat :: k + 1 < ran ==> !ends(k, ResultAt(execute, w, calls, k)))
    && (ran < |calls| ==> ran > 0 && ends(ran - 1, ResultAt(execute, w, calls, ran - 1)))
  }

  /** One turn's calls with read-ahead, under any completion orders. What the loop consumes,
      and the world it leaves, are those of running the calls one by one; a call runs at
      most once, and every consumed call exactly once. */
  method RunCalls<W(!new), R>(execute: Execute<W, R>, r: Registry, world: W, calls: seq<ToolCall>,
                              ends: (nat, R) -> bool, orders: (nat, nat) -> seq<nat>)
    returns (results: seq<R>, world': W, ghost runs: multiset<nat>)
    requires ReadOnly(execute, r)
    requires forall s: nat, e: nat :: s < e <= |calls| ==> CompletionOrder(orders(s, e), s, e)
    ensures LeavesAfter(execute, world, calls, ends, |results|)
    ensures forall i :: 0 <= i < |results| ==> results[i] == ResultAt(execute, world, calls, i)
    ensures world' == WorldAfter(execute, world, calls, |results|)
    ensures forall k: nat :: runs[k] <= 1 && (k < |results| ==> runs[k] == 1)
    ensures forall k: nat :: runs[k] == 1 ==> k < |calls| && (k < |results| || r.safe(calls[k]))
  {
    hide SafeRun, ReadOnly, CompletionOrder, Ahead, ResultAt, WorldAfter;
    NothingAhead(execute, r, world, calls);
    results, world', runs := [], world, multiset{};
    var precomputed: seq<R> := [];
    var precomputedStart, precomputedEnd := 0, 0;
    for index := 0 to |calls|
      invariant |results| == index && world' == WorldAfter(execute, world, calls, index)
      invariant forall i :: 0 <= i < index ==> results[i] == ResultAt(execute, world, calls, i)
      invariant forall k: nat :: k < index ==> !ends(k, ResultAt(execute, world, calls, k))
      invariant Ahead(execute, r, world, calls, precomputed, precomputedStart, precomputedEnd, index)
      invariant precomputedEnd <= |calls|
      invariant forall k: nat :: runs[k] == if k < index || k < precomputedEnd then 1 else 0
    {
      if index >= precomputedEnd {
        var runEnd := ExtendParallelRun(r, calls, index);
        if runEnd - index >= 2 {
          ghost var ran;
          SafeRunInRange(r, calls, index, runEnd);
          precomputed, world', ran := ExecuteParallelReadBatch(execute, r, world', calls, index, runEnd, orders(index, runEnd));
          precomputedStart, precomputedEnd := index, runEnd;
          ReadAheadIsSequential(execute, r, world, calls, precomputed, index, runEnd);
          runs := runs + ran;
        }
      }
      AheadHere(execute, r, world, calls, precomputed, precomputedStart, precomputedEnd, index);
      OneCall(execute, world, calls, index);
      var result: R;
      if precomputedStart <= index < precomputedEnd {
        result := precomputed[index - precomputedStart];
        SafeCallsLeaveTheWorld(execute, r, world, calls, index, index + 1);
      } else {
        var executed := execute(world', calls[index]);
        world' := executed.0;
        result := executed.1;
        runs := runs + multiset{index};
      }
      results := results + [result];
      if ends(index, result) {
        return;
      }
    }
  }

  /** The precomputed results are those the calls would give in turn. */
  ghost predicate Ahead<W, R>(execute: Execute<W, R>, r: Registry, w: W, calls: seq<ToolCall>, precomputed: seq<R>,
                              start: nat, end: nat, index: nat)
  {
    && start <= end <= |calls| && |precomputed| == end - start
    && (start <= index || end <= index)
    && (forall k :: start <= k < end ==> r.safe(calls[k]))
    && (forall i :: 0 <= i < end - start ==> precomputed[i] == ResultAt(execute, w, calls, start + i))
  }

  lemma NothingAhead<W, R>(execute: Execute<W, R>, r: Registry, w: W, calls: seq<ToolCall>)
    ensures Ahead(execute, r, w, calls, [], 0, 0, 0) && WorldAfter(execute, w, calls, 0) == w
  {
  }

  lemma SafeRunInRange(r: Registry, calls: seq<ToolCall>, start: nat, end: nat)
    requires SafeRun(r, calls, start, end)
    ensures end <= |calls|
  {
  }

  lemma AheadHere<W, R>(execute: Execute<W, R>, r: Registry, w: W, calls: seq<ToolCall>, precomputed: seq<R>,
                        start: nat, end: nat, index: nat)
    requires Ahead(execute, r, w, calls, precomputed, start, end, index) && index < |calls|
    ensures |precomputed| == end - start && end <= |calls|
    ensures index < end ==> start <= index && precomputed[index - start] == ResultAt(execute, w, calls, index)
    ensures forall k :: index <= k < end ==> r.safe(calls[k])
    ensures Ahead(execute, r, w, calls, precomputed, start, end, index + 1)
  {
    if index < end {
      assert precomputed[index - start] == ResultAt(execute, w, calls, start + (index - start));
    }
  }

  lemma OneCall<W, R>(execute: Execute<W, R>, w: W, calls: seq<ToolCall>, index: nat)
    requires index < |calls|
    ensures execute(WorldAfter(execute, w, calls, index), calls[index])
      == (WorldAfter(execute, w, calls, index + 1), ResultAt(execute, w, calls, index))
  {
  }

  lemma ReadAheadIsSequential<W(!new), R>(execute: Execute<W, R>, r: Registry, w: W, calls: seq<ToolCall>,
                                          precomputed: seq<R>, start: nat, end: nat)
    requires ReadOnly(execute, r) && SafeRun(r, calls, start, end) && |precomputed| == end - start
    requires forall i :: 0 <= i < end - start ==>
      precomputed[i] == execute(WorldAfter(execute, w, calls, start), calls[start + i]).1
    ensures Ahead(execute, r, w, calls, precomputed, start, end, start)
  {
    forall i | 0 <= i < end - start ensures precomputed[i] == ResultAt(execute, w, calls, start + i) {
      SafeCallsLeaveTheWorld(execute, r, w, calls, start, start + i);
    }
  }
}
