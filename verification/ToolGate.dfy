/** The relevance gate: how a large tool result is cut into blocks, when hiding them is
    allowed, and what the model is left with. */
module ToolGate {
  import opened Text

  const BLOCK_LINES := 25
  const BLOCK_BYTES := 1500
  const MIN_BLOCKS := 2

  datatype Block = Block(start: nat, end: nat)

  /** The bytes of the lines from `s` to `e`, a newline counted for each. */
  function LineBytes(lines: seq<string>, s: nat, e: nat): nat
    requires s <= e <= |lines|
    decreases e - s
  {
    if s == e then 0 else LineBytes(lines, s, e - 1) + |lines[e - 1]| + 1
  }

  /** A block may hold one line of any size, or several within both caps. */
  predicate Fits(lines: seq<string>, s: nat, e: nat) {
    s < e <= |lines| && (e == s + 1 || (e - s <= BLOCK_LINES && LineBytes(lines, s, e) <= BLOCK_BYTES))
  }

  /** Blocks lying end to end over the first `n` lines, each within the caps. */
  ghost predicate Covers(lines: seq<string>, blocks: seq<Block>, n: nat) {
    && (forall k :: 0 <= k < |blocks| ==> Fits(lines, blocks[k].start, blocks[k].end))
    && (blocks == [] ==> n == 0)
    && (blocks != [] ==> blocks[0].start == 0 && blocks[|blocks| - 1].end == n)
    && (forall j, k :: 0 <= j && k == j + 1 && k < |blocks| ==> blocks[k].start == blocks[j].end)
  }

  /** No block but the last could take one more line. */
  predicate Greedy(lines: seq<string>, blocks: seq<Block>) {
    forall k :: 0 <= k < |blocks| - 1 ==> !Fits(lines, blocks[k].start, blocks[k].end + 1)
  }

  lemma {:induction false} LineBytesSplit(lines: seq<string>, s: nat, m: nat, e: nat)
    requires s <= m <= e <= |lines|
    ensures LineBytes(lines, s, e) == LineBytes(lines, s, m) + LineBytes(lines, m, e)
    decreases e - m
  {
    if m < e {
      LineBytesSplit(lines, s, m, e - 1);
    }
  }

  /** Part of a block that fits fits. */
  lemma PartFits(lines: seq<string>, s: nat, e: nat, s': nat, e': nat)
    requires Fits(lines, s, e) && s <= s' < e' <= e
    ensures Fits(lines, s', e')
  {
    LineBytesSplit(lines, s, s', e);
    LineBytesSplit(lines, s', e', e);
  }

  /** The greedy cut is never behind another one. */
  lemma {:induction false} GreedyStaysAhead(lines: seq<string>, blocks: seq<Block>, other: seq<Block>, k: nat)
    requires Covers(lines, blocks, |lines|) && Greedy(lines, blocks) && Covers(lines, other, |lines|)
    requires k < |blocks| && k < |other|
    ensures other[k].end <= blocks[k].end
  {
    if k > 0 {
      GreedyStaysAhead(lines, blocks, other, k - 1);
      assert blocks[k].start == blocks[k - 1].end && other[k].start == other[k - 1].end;
    }
    if k < |blocks| - 1 && other[k].end > blocks[k].end {
      PartFits(lines, other[k].start, other[k].end, blocks[k].start, blocks[k].end + 1);
    }
    if k == |blocks| - 1 {
      assert Fits(lines, other[k].start, other[k].end);
    }
  }

  lemma {:induction false} EndsRise(lines: seq<string>, blocks: seq<Block>, n: nat, j: nat, k: nat)
    requires Covers(lines, blocks, n) && j < k < |blocks|
    ensures blocks[j].end < blocks[k].end
  {
    assert blocks[k].start == blocks[k - 1].end;
    if j < k - 1 {
      EndsRise(lines, blocks, n, j, k - 1);
    }
  }

  /** No cut within the caps has fewer blocks. */
  lemma GreedyIsMinimal(lines: seq<string>, blocks: seq<Block>, other: seq<Block>)
    requires Covers(lines, blocks, |lines|) && Greedy(lines, blocks) && Covers(lines, other, |lines|)
    ensures |blocks| <= |other|
  {
    if |other| < |blocks| {
      if other != [] {
        GreedyStaysAhead(lines, blocks, other, |other| - 1);
        EndsRise(lines, blocks, |lines|, |other| - 1, |blocks| - 1);
      }
    }
  }

  /** Closed blocks so far: they cover the lines before `start`, and none could take more. */
  ghost predicate Cutting(lines: seq<string>, blocks: seq<Block>, start: nat) {
    Covers(lines, blocks, start) && forall k :: 0 <= k < |blocks| ==> !Fits(lines, blocks[k].start, blocks[k].end + 1)
  }

  lemma CloseBlock(lines: seq<string>, blocks: seq<Block>, start: nat, i: nat)
    requires Cutting(lines, blocks, start) && Fits(lines, start, i)
    ensures Covers(lines, blocks + [Block(start, i)], i) && Greedy(lines, blocks + [Block(start, i)])
    ensures !Fits(lines, start, i + 1) ==> Cutting(lines, blocks + [Block(start, i)], i)
  {
    hide Fits;
  }

  lemma WholeOrSplit(lines: seq<string>, blocks: seq<Block>)
    requires Covers(lines, blocks, |lines|) && Greedy(lines, blocks)
    ensures |blocks| == 1 ==> Fits(lines, 0, |lines|)
    ensures |blocks| >= 2 ==> !Fits(lines, 0, |lines|)
  {
    if |blocks| >= 2 && Fits(lines, 0, |lines|) {
      EndsRise(lines, blocks, |lines|, 0, |blocks| - 1);
      PartFits(lines, 0, |lines|, blocks[0].start, blocks[0].end + 1);
    }
  }

  lemma NextLine(lines: seq<string>, start: nat, i: nat)
    requires start < i < |lines|
    ensures Fits(lines, start, i + 1) <==> i - start < BLOCK_LINES && LineBytes(lines, start, i) + |lines[i]| + 1 <= BLOCK_BYTES
  {
  }

  /** Cuts the lines greedily; nothing when fewer than two blocks result. */
  method GateBlocks(lines: seq<string>) returns (blocks: seq<Block>)
    ensures blocks == [] <==> |lines| < MIN_BLOCKS || Fits(lines, 0, |lines|)
    ensures blocks != [] ==> |blocks| >= MIN_BLOCKS && Covers(lines, blocks, |lines|) && Greedy(lines, blocks)
  {
    blocks := [];
    if |lines| < MIN_BLOCKS {
      return;
    }
    hide Covers, Greedy, Cutting, Fits;
    NoBlocks(lines);
    var start, bytes := 0, 0;
    for i := 0 to |lines|
      invariant start <= i && (start == i ==> i == 0)
      invariant bytes == LineBytes(lines, start, i)
      invariant Cutting(lines, blocks, start)
      invariant i > start ==> Fits(lines, start, i)
    {
      if i > start {
        NextLine(lines, start, i);
      }
      OneLineFits(lines, i);
      if i > start && (i - start >= BLOCK_LINES || bytes + |lines[i]| + 1 > BLOCK_BYTES) {
        CloseBlock(lines, blocks, start, i);
        blocks := blocks + [Block(start, i)];
        start, bytes := i, 0;
      }
      bytes := bytes + |lines[i]| + 1;
    }
    CloseBlock(lines, blocks, start, |lines|);
    blocks := blocks + [Block(start, |lines|)];
    WholeOrSplit(lines, blocks);
    if |blocks| < MIN_BLOCKS {
      return [];
    }
  }

  lemma NoBlocks(lines: seq<string>)
    ensures Cutting(lines, [], 0)
  {
  }

  lemma OneLineFits(lines: seq<string>, i: nat)
    requires i < |lines|
    ensures Fits(lines, i, i + 1)
  {
  }

  function JoinedLength(lines: seq<string>): nat {
    if lines == [] then 0
    else if |lines| == 1 then |lines[0]|
    else JoinedLength(lines[..|lines| - 1]) + 1 + |lines[|lines| - 1]|
  }

  lemma {:induction false} BodyBytes(lines: seq<string>, n: nat)
    requires 0 < n <= |lines|
    ensures LineBytes(lines, 0, n) == JoinedLength(lines[..n]) + 1
  {
    assert lines[..n][..n - 1] == lines[..n - 1];
    if n > 1 {
      BodyBytes(lines, n - 1);
    } else {
      assert LineBytes(lines, 0, 0) == 0;
    }
  }

  /** A body of two or more lines can be gated exactly when it has more than 25 lines or at
      least 1500 bytes. */
  lemma LargeBodiesSplit(lines: seq<string>)
    requires |lines| >= 2
    ensures Fits(lines, 0, |lines|) <==> |lines| <= BLOCK_LINES && JoinedLength(lines) < BLOCK_BYTES
  {
    BodyBytes(lines, |lines|);
    assert lines[..|lines|] == lines;
  }

  /* ---- what is hidden ---- */

  const DEFAULT_KEEP := 0.5
  const DEFAULT_DROP := 0.2
  const DEFAULT_MIN_PRUNE := 0.2
  const DEFAULT_MAX_HIDDEN := 0.5

  /** The policy knobs that decide what happens to a judged result. */
  datatype Policy = Policy(keep: real, drop: real, minPrune: real, maxHidden: real, shadow: bool)

  datatype Decision = ErrorPresent | KeptWhole | BelowMin | AboveMax | Shadowed | Pruned

  /** Defaults for unset knobs, with the band and the two ratios put in order. */
  function WithDefaults(p: Policy): (q: Policy)
    ensures 0.0 < q.drop <= q.keep && 0.0 < q.minPrune <= q.maxHidden
    ensures 0.0 < p.drop <= p.keep && 0.0 < p.minPrune <= p.maxHidden ==> q == p
    ensures q.keep == if p.keep > 0.0 then p.keep else DEFAULT_KEEP
    ensures q.drop == q.keep || q.drop == if p.drop > 0.0 then p.drop else DEFAULT_DROP
    ensures q.minPrune == if p.minPrune > 0.0 then p.minPrune else DEFAULT_MIN_PRUNE
    ensures q.maxHidden == q.minPrune || q.maxHidden == if p.maxHidden > 0.0 then p.maxHidden else DEFAULT_MAX_HIDDEN
    ensures p.drop <= 0.0 && q.keep >= DEFAULT_DROP ==> q.drop == DEFAULT_DROP
    ensures 0.0 < p.drop <= q.keep ==> q.drop == p.drop
    ensures p.maxHidden <= 0.0 && q.minPrune <= DEFAULT_MAX_HIDDEN ==> q.maxHidden == DEFAULT_MAX_HIDDEN
    ensures q.minPrune <= p.maxHidden ==> q.maxHidden == p.maxHidden
    ensures q.shadow == p.shadow
  {
    var keep := if p.keep <= 0.0 then DEFAULT_KEEP else p.keep;
    var drop := if p.drop <= 0.0 then DEFAULT_DROP else p.drop;
    var minPrune := if p.minPrune <= 0.0 then DEFAULT_MIN_PRUNE else p.minPrune;
    var maxHidden := if p.maxHidden <= 0.0 then DEFAULT_MAX_HIDDEN else p.maxHidden;
    Policy(keep, if drop > keep then keep else drop, minPrune, if maxHidden < minPrune then minPrune else maxHidden, p.shadow)
  }

  function HiddenLines(blocks: seq<Block>, hidden: seq<bool>): int
    requires |hidden| == |blocks|
  {
    if blocks == [] then 0
    else
      var n := |blocks| - 1;
      HiddenLines(blocks[..n], hidden[..n]) + if hidden[n] then blocks[n].end - blocks[n].start else 0
  }

  /** What is decided about a judged result, from the share of its lines that would go: an
      error keeps it, so does a share outside the window, and inside it a shadow run or a body
      that could not be kept elsewhere leaves it as it is. */
  predicate Decides(p: Policy, errorPresent: bool, hiddenLines: int, total: nat, spilled: bool, d: Decision)
    requires total > 0
  {
    var share := hiddenLines as real / total as real;
    match d
    case ErrorPresent => errorPresent
    case KeptWhole =>
      !errorPresent && (hiddenLines == 0 || (p.minPrune <= share < p.maxHidden && !p.shadow && !spilled))
    case BelowMin => !errorPresent && hiddenLines != 0 && share < p.minPrune
    case AboveMax => !errorPresent && hiddenLines != 0 && p.minPrune <= share && p.maxHidden <= share
    case Shadowed => !errorPresent && hiddenLines != 0 && p.minPrune <= share < p.maxHidden && p.shadow
    case Pruned => !errorPresent && hiddenLines != 0 && p.minPrune <= share < p.maxHidden && !p.shadow && spilled
  }

  /** A block is hidden when the classifier gave it a probability of being needed below the
      drop threshold; one it gave none is kept. */
  method HideBlocks(blocks: seq<Block>, answers: seq<Option<real>>, p: Policy, errorPresent: bool, total: nat, spilled: bool)
    returns (decision: Decision, hidden: seq<bool>, hiddenLines: nat)
    requires |answers| == |blocks| && total > 0 && forall k :: 0 <= k < |blocks| ==> blocks[k].start <= blocks[k].end
    ensures |hidden| == |blocks|
    ensures forall k :: 0 <= k < |blocks| ==> (hidden[k] <==> answers[k].Some? && answers[k].value < p.drop)
    ensures hiddenLines == HiddenLines(blocks, hidden)
    ensures Decides(p, errorPresent, hiddenLines, total, spilled, decision)
  {
    hidden, hiddenLines := [], 0;
    for i := 0 to |blocks|
      invariant |hidden| == i && forall k :: 0 <= k < i ==> (hidden[k] <==> answers[k].Some? && answers[k].value < p.drop)
      invariant hiddenLines == HiddenLines(blocks[..i], hidden)
    {
      ghost var before := hidden;
      if answers[i].Some? && answers[i].value < p.drop {
        hidden := hidden + [true];
        hiddenLines := hiddenLines + (blocks[i].end - blocks[i].start);
      } else {
        hidden := hidden + [false];
      }
      assert hidden[..i] == before;
      assert blocks[..i + 1][..i] == blocks[..i];
    }
    assert blocks[..|blocks|] == blocks;
    var share := hiddenLines as real / total as real;
    if errorPresent {
      decision := ErrorPresent;
    } else if hiddenLines == 0 {
      decision := KeptWhole;
    } else if share < p.minPrune {
      decision := BelowMin;
    } else if share >= p.maxHidden {
      decision := AboveMax;
    } else if p.shadow {
      decision := Shadowed;
    } else {
      decision := if spilled then Pruned else KeptWhole;
    }
  }

  /* ---- rendering ---- */

  /** One line of the rendered result: a line of the body, or a count of hidden ones. */
  datatype Item = Line(text: string) | Gap(count: int)

  function Lines(lines: seq<string>, s: nat, e: nat): (items: seq<Item>)
    requires s <= e <= |lines|
    ensures |items| == e - s && forall k :: 0 <= k < e - s ==> items[k] == Line(lines[s + k])
  {
    seq(e - s, k requires 0 <= k < e - s => Line(lines[s + k]))
  }

  /** The first block at or after `k` that is not hidden. */
  function RunEnd(hidden: seq<bool>, k: nat): (r: nat)
    requires k <= |hidden|
    ensures k <= r <= |hidden|
    ensures forall j :: k <= j < r ==> hidden[j]
    ensures r < |hidden| ==> !hidden[r]
    decreases |hidden| - k
  {
    if k < |hidden| && hidden[k] then RunEnd(hidden, k + 1) else k
  }

  function StartOf(blocks: seq<Block>, total: nat, k: nat): nat
    requires k <= |blocks|
  {
    if k < |blocks| then blocks[k].start else total
  }

  predicate Ordered(blocks: seq<Block>, total: nat) {
    forall j :: 0 <= j < |blocks| ==> blocks[j].start < blocks[j].end <= total
  }

  /** The rendering of the blocks from `k` on: shown ones line by line, each run of hidden
      ones as one gap. */
  function Items(lines: seq<string>, blocks: seq<Block>, hidden: seq<bool>, k: nat): seq<Item>
    requires |hidden| == |blocks| && k <= |blocks| && Ordered(blocks, |lines|)
    decreases |blocks| - k
  {
    if k == |blocks| then []
    else if !hidden[k] then Lines(lines, blocks[k].start, blocks[k].end) + Items(lines, blocks, hidden, k + 1)
    else
      var r := RunEnd(hidden, k);
      [Gap(StartOf(blocks, |lines|, r) - blocks[k].start)] + Items(lines, blocks, hidden, r)
  }

  ghost predicate EndToEnd(blocks: seq<Block>, total: nat) {
    forall j :: 0 <= j < |blocks| ==> blocks[j].end == StartOf(blocks, total, j + 1)
  }

  lemma CoverRange(lines: seq<string>, blocks: seq<Block>)
    requires Covers(lines, blocks, |lines|)
    ensures Ordered(blocks, |lines|) && EndToEnd(blocks, |lines|)
  {
    forall j | 0 <= j < |blocks| ensures blocks[j].end == StartOf(blocks, |lines|, j + 1) {
      if j + 1 < |blocks| {
        var k := j + 1;
        assert blocks[k].start == blocks[j].end;
      }
    }
  }

  /** What block `k` adds to the rendering. */
  lemma ItemsAt(lines: seq<string>, blocks: seq<Block>, hidden: seq<bool>, k: nat)
    requires |hidden| == |blocks| && k < |blocks| && Ordered(blocks, |lines|)
    ensures !hidden[k] ==>
      Items(lines, blocks, hidden, k) == Lines(lines, blocks[k].start, blocks[k].end) + Items(lines, blocks, hidden, k + 1)
    ensures hidden[k] ==>
      && RunEnd(hidden, k) == RunEnd(hidden, k + 1)
      && Items(lines, blocks, hidden, k) ==
         [Gap(StartOf(blocks, |lines|, RunEnd(hidden, k)) - blocks[k].start)] + Items(lines, blocks, hidden, RunEnd(hidden, k))
  {
  }

  lemma Joins<T>(a: seq<T>, b: seq<T>, c: seq<T>)
    ensures a + (b + c) == a + b + c
  {
  }

  /** `out` followed by the rendering from `k` is the whole rendering. */
  ghost predicate RenderedTo(lines: seq<string>, blocks: seq<Block>, hidden: seq<bool>, out: seq<Item>, k: nat) {
    && |hidden| == |blocks| && k <= |blocks| && Ordered(blocks, |lines|)
    && out + Items(lines, blocks, hidden, k) == Items(lines, blocks, hidden, 0)
  }

  lemma RenderNext(lines: seq<string>, blocks: seq<Block>, hidden: seq<bool>, out: seq<Item>, k: nat)
    requires RenderedTo(lines, blocks, hidden, out, k) && k < |blocks|
    ensures blocks[k].start < blocks[k].end <= |lines|
    ensures !hidden[k] ==> RenderedTo(lines, blocks, hidden, out + Lines(lines, blocks[k].start, blocks[k].end), k + 1)
    ensures hidden[k] ==> var r := RunEnd(hidden, k);
      RenderedTo(lines, blocks, hidden, out + [Gap(StartOf(blocks, |lines|, r) - blocks[k].start)], r)
  {
    hide Items;
    ItemsAt(lines, blocks, hidden, k);
    if hidden[k] {
      var r := RunEnd(hidden, k);
      Joins(out, [Gap(StartOf(blocks, |lines|, r) - blocks[k].start)], Items(lines, blocks, hidden, r));
    } else {
      Joins(out, Lines(lines, blocks[k].start, blocks[k].end), Items(lines, blocks, hidden, k + 1));
    }
  }

  method RenderGated(lines: seq<string>, blocks: seq<Block>, hidden: seq<bool>) returns (out: seq<Item>)
    requires Covers(lines, blocks, |lines|) && |hidden| == |blocks|
    ensures Ordered(blocks, |lines|) && out == Items(lines, blocks, hidden, 0)
  {
    hide Items, Covers, RenderedTo, Ordered, EndToEnd, RunEnd;
    CoverRange(lines, blocks);
    out := [];
    NothingRendered(lines, blocks, hidden);
    var index := 0;
    while index < |blocks|
      invariant index <= |blocks|
      invariant RenderedTo(lines, blocks, hidden, out, index)
    {
      RenderNext(lines, blocks, hidden, out, index);
      if !hidden[index] {
        out := out + Lines(lines, blocks[index].start, blocks[index].end);
        index := index + 1;
      } else {
        var runLines;
        runLines, index := CountRun(lines, blocks, hidden, index);
        out := out + [Gap(runLines)];
      }
    }
    AllRendered(lines, blocks, hidden, out);
  }

  lemma NothingRendered(lines: seq<string>, blocks: seq<Block>, hidden: seq<bool>)
    requires |hidden| == |blocks| && Ordered(blocks, |lines|)
    ensures RenderedTo(lines, blocks, hidden, [], 0)
  {
    hide Items;
  }

  lemma AllRendered(lines: seq<string>, blocks: seq<Block>, hidden: seq<bool>, out: seq<Item>)
    requires RenderedTo(lines, blocks, hidden, out, |blocks|)
    ensures Ordered(blocks, |lines|) && out == Items(lines, blocks, hidden, 0)
  {
    NothingLeft(lines, blocks, hidden);
    hide Items;
    assert out + [] == out;
  }

  lemma NothingLeft(lines: seq<string>, blocks: seq<Block>, hidden: seq<bool>)
    requires |hidden| == |blocks| && Ordered(blocks, |lines|)
    ensures Items(lines, blocks, hidden, |blocks|) == []
  {
  }

  /** Counts the lines of a run of hidden blocks. */
  method CountRun(lines: seq<string>, blocks: seq<Block>, hidden: seq<bool>, first: nat) returns (runLines: int, index: nat)
    requires |hidden| == |blocks| && first < |blocks| && hidden[first] && EndToEnd(blocks, |lines|)
    ensures first < index <= |blocks| && index == RunEnd(hidden, first)
    ensures runLines == StartOf(blocks, |lines|, index) - blocks[first].start
  {
    hide EndToEnd;
    runLines, index := 0, first;
    while index < |blocks| && hidden[index]
      invariant first <= index <= |blocks|
      invariant RunEnd(hidden, first) == RunEnd(hidden, index)
      invariant runLines == StartOf(blocks, |lines|, index) - blocks[first].start
    {
      EndsAtNext(blocks, |lines|, index);
      runLines := runLines + (blocks[index].end - blocks[index].start);
      index := index + 1;
    }
  }

  lemma EndsAtNext(blocks: seq<Block>, total: nat, j: nat)
    requires EndToEnd(blocks, total) && j < |blocks|
    ensures blocks[j].end == StartOf(blocks, total, j + 1)
  {
  }

  /** Reading the rendering against the body: a line must be the body's next one, and a gap
      skips as many as it counts. */
  function Replay(items: seq<Item>, lines: seq<string>, at: nat): Option<seq<string>>
    requires at <= |lines|
    decreases |items|
  {
    if items == [] then Some([])
    else
      match items[0]
      case Line(text) =>
        if at < |lines| && lines[at] == text then
          var rest := Replay(items[1..], lines, at + 1);
          if rest.Some? then Some([text] + rest.value) else None
        else None
      case Gap(count) =>
        if 0 < count && at + count <= |lines| then
          var rest := Replay(items[1..], lines, at + count);
          if rest.Some? then Some(lines[at..at + count] + rest.value) else None
        else None
  }

  lemma {:induction false} ReplayLines(lines: seq<string>, s: nat, e: nat, rest: seq<Item>)
    requires s <= e <= |lines| && Replay(rest, lines, e) == Some(lines[e..])
    ensures Replay(Lines(lines, s, e) + rest, lines, s) == Some(lines[s..])
    decreases e - s
  {
    if s == e {
      assert Lines(lines, s, e) + rest == rest;
    } else {
      var items := Lines(lines, s, e) + rest;
      assert items[1..] == Lines(lines, s + 1, e) + rest;
      ReplayLines(lines, s + 1, e, rest);
      assert lines[s..] == [lines[s]] + lines[s + 1..];
    }
  }

  lemma ReplayGap(lines: seq<string>, s: nat, e: nat, rest: seq<Item>)
    requires s < e <= |lines| && Replay(rest, lines, e) == Some(lines[e..])
    ensures Replay([Gap(e - s)] + rest, lines, s) == Some(lines[s..])
  {
    assert ([Gap(e - s)] + rest)[1..] == rest;
    assert lines[s..] == lines[s..e] + lines[e..];
  }

  /** The kept lines and the counts of hidden ones account for the whole body, in order. */
  lemma {:induction false} RenderingReplays(lines: seq<string>, blocks: seq<Block>, hidden: seq<bool>, k: nat)
    requires Covers(lines, blocks, |lines|) && |hidden| == |blocks| && k <= |blocks|
    ensures Ordered(blocks, |lines|) && StartOf(blocks, |lines|, k) <= |lines|
    ensures Replay(Items(lines, blocks, hidden, k), lines, StartOf(blocks, |lines|, k)) == Some(lines[StartOf(blocks, |lines|, k)..])
    decreases |blocks| - k
  {
    hide Covers, Items, Replay, Lines, EndToEnd;
    CoverRange(lines, blocks);
    if k == |blocks| {
      NothingLeft(lines, blocks, hidden);
      ReplayNothing(lines);
    } else {
      ItemsAt(lines, blocks, hidden, k);
      if !hidden[k] {
        RenderingReplays(lines, blocks, hidden, k + 1);
        ReplayLines(lines, blocks[k].start, blocks[k].end, Items(lines, blocks, hidden, k + 1));
      } else {
        var r := RunEnd(hidden, k);
        RenderingReplays(lines, blocks, hidden, r);
        StartsRise(lines, blocks, k, r);
        ReplayGap(lines, blocks[k].start, StartOf(blocks, |lines|, r), Items(lines, blocks, hidden, r));
      }
    }
  }

  lemma ReplayNothing(lines: seq<string>)
    ensures Replay([], lines, |lines|) == Some(lines[|lines|..])
  {
    assert lines[|lines|..] == [];
  }

  lemma {:induction false} StartsRise(lines: seq<string>, blocks: seq<Block>, j: nat, k: nat)
    requires Covers(lines, blocks, |lines|) && j < k <= |blocks|
    ensures blocks[j].start < StartOf(blocks, |lines|, k) <= |lines|
  {
    hide Covers, Ordered, EndToEnd;
    CoverRange(lines, blocks);
    BlockInBody(blocks, |lines|, k - 1);
    EndsAtNext(blocks, |lines|, k - 1);
    if j < k - 1 {
      StartsRise(lines, blocks, j, k - 1);
    }
  }

  /** The positions in the body of the lines a rendering from line `at` on shows. */
  function ShownAt(items: seq<Item>, at: int): set<int> {
    if items == [] then {}
    else
      match items[0]
      case Line(_) => {at} + ShownAt(items[1..], at + 1)
      case Gap(count) => ShownAt(items[1..], at + count)
  }

  lemma {:induction false} ShownLines(lines: seq<string>, s: nat, e: nat, rest: seq<Item>, i: int)
    requires s <= e <= |lines|
    ensures i in ShownAt(Lines(lines, s, e) + rest, s) <==> s <= i < e || i in ShownAt(rest, e)
    decreases e - s
  {
    if s == e {
      assert Lines(lines, s, e) + rest == rest;
    } else {
      assert (Lines(lines, s, e) + rest)[1..] == Lines(lines, s + 1, e) + rest;
      ShownLines(lines, s + 1, e, rest, i);
    }
  }

  /** Line `i` is one of a shown block from `k` on. */
  predicate InShownBlock(blocks: seq<Block>, hidden: seq<bool>, k: nat, i: int)
    requires |hidden| == |blocks|
  {
    exists j :: k <= j < |blocks| && !hidden[j] && blocks[j].start <= i < blocks[j].end
  }

  /** Exactly the lines of the blocks that are not hidden are shown. */
  lemma {:induction false} ShownIffNotHidden(lines: seq<string>, blocks: seq<Block>, hidden: seq<bool>, k: nat, i: int)
    requires Covers(lines, blocks, |lines|) && |hidden| == |blocks| && k <= |blocks|
    ensures Ordered(blocks, |lines|)
    ensures i in ShownAt(Items(lines, blocks, hidden, k), StartOf(blocks, |lines|, k)) <==> InShownBlock(blocks, hidden, k, i)
    decreases |blocks| - k
  {
    hide Covers, Items, ShownAt, Lines, EndToEnd;
    CoverRange(lines, blocks);
    if k == |blocks| {
      NothingLeft(lines, blocks, hidden);
      NothingShown(|lines|);
    } else {
      ItemsAt(lines, blocks, hidden, k);
      if !hidden[k] {
        ShownIffNotHidden(lines, blocks, hidden, k + 1, i);
        ShownLines(lines, blocks[k].start, blocks[k].end, Items(lines, blocks, hidden, k + 1), i);
        EndsAtNext(blocks, |lines|, k);
      } else {
        var r := RunEnd(hidden, k);
        ShownIffNotHidden(lines, blocks, hidden, r, i);
        GapShowsNothing(StartOf(blocks, |lines|, r) - blocks[k].start, Items(lines, blocks, hidden, r), blocks[k].start);
      }
    }
  }

  lemma NothingShown(at: int)
    ensures ShownAt([], at) == {}
  {
  }

  lemma GapShowsNothing(count: int, rest: seq<Item>, at: int)
    ensures ShownAt([Gap(count)] + rest, at) == ShownAt(rest, at + count)
  {
    assert ([Gap(count)] + rest)[1..] == rest;
  }

  /* ---- how much survives ---- */

  /** The body lines a rendering shows, and the lines its gaps stand for. */
  function Shown(items: seq<Item>): nat {
    if items == [] then 0 else Shown(items[..|items| - 1]) + if items[|items| - 1].Line? then 1 else 0
  }

  function Skipped(items: seq<Item>): int {
    if items == [] then 0
    else Skipped(items[..|items| - 1]) + if items[|items| - 1].Gap? then items[|items| - 1].count else 0
  }

  lemma {:induction false} CountsConcat(a: seq<Item>, b: seq<Item>)
    ensures Shown(a + b) == Shown(a) + Shown(b) && Skipped(a + b) == Skipped(a) + Skipped(b)
  {
    if b == [] {
      assert a + b == a;
    } else {
      assert (a + b)[..|a + b| - 1] == a + b[..|b| - 1];
      CountsConcat(a, b[..|b| - 1]);
    }
  }

  lemma {:induction false} AllLines(items: seq<Item>)
    requires forall k :: 0 <= k < |items| ==> items[k].Line?
    ensures Shown(items) == |items| && Skipped(items) == 0
  {
    if items != [] {
      AllLines(items[..|items| - 1]);
    }
  }

  lemma OneGap(count: int)
    ensures Shown([Gap(count)]) == 0 && Skipped([Gap(count)]) == count
  {
    assert [Gap(count)][..0] == [];
  }

  /** The hidden lines of the first `k` blocks. */
  function HiddenBefore(blocks: seq<Block>, hidden: seq<bool>, k: nat): int
    requires |hidden| == |blocks| && k <= |blocks|
  {
    HiddenLines(blocks[..k], hidden[..k])
  }

  lemma HiddenStep(blocks: seq<Block>, hidden: seq<bool>, k: nat)
    requires |hidden| == |blocks| && k < |blocks|
    ensures HiddenBefore(blocks, hidden, k + 1)
         == HiddenBefore(blocks, hidden, k) + if hidden[k] then blocks[k].end - blocks[k].start else 0
  {
    assert blocks[..k + 1][..k] == blocks[..k] && hidden[..k + 1][..k] == hidden[..k];
  }

  lemma {:induction false} HiddenRun(blocks: seq<Block>, total: nat, hidden: seq<bool>, k: nat, r: nat)
    requires |hidden| == |blocks| && k <= r <= |blocks| && EndToEnd(blocks, total)
    requires forall j :: k <= j < r ==> hidden[j]
    ensures HiddenBefore(blocks, hidden, r) - HiddenBefore(blocks, hidden, k)
         == StartOf(blocks, total, r) - StartOf(blocks, total, k)
  {
    hide HiddenBefore, EndToEnd;
    if k < r {
      HiddenRun(blocks, total, hidden, k, r - 1);
      HiddenStep(blocks, hidden, r - 1);
      EndsAtNext(blocks, total, r - 1);
    }
  }

  /** From any block on, the rendering accounts for each remaining line once: shown as it
      is, or counted by a gap. */
  lemma {:induction false} CountsFrom(lines: seq<string>, blocks: seq<Block>, hidden: seq<bool>, k: nat)
    requires Ordered(blocks, |lines|) && EndToEnd(blocks, |lines|) && |hidden| == |blocks| && k <= |blocks|
    ensures Skipped(Items(lines, blocks, hidden, k))
         == HiddenBefore(blocks, hidden, |blocks|) - HiddenBefore(blocks, hidden, k)
    ensures Shown(Items(lines, blocks, hidden, k)) + Skipped(Items(lines, blocks, hidden, k))
         == |lines| - StartOf(blocks, |lines|, k)
    decreases |blocks| - k
  {
    hide Items, HiddenBefore, EndToEnd, Ordered, Shown, Skipped;
    if k == |blocks| {
      NothingLeft(lines, blocks, hidden);
      AllLines([]);
    } else {
      ItemsAt(lines, blocks, hidden, k);
      BlockInBody(blocks, |lines|, k);
      if !hidden[k] {
        CountsFrom(lines, blocks, hidden, k + 1);
        var shown := Lines(lines, blocks[k].start, blocks[k].end);
        AllLines(shown);
        CountsConcat(shown, Items(lines, blocks, hidden, k + 1));
        HiddenStep(blocks, hidden, k);
        EndsAtNext(blocks, |lines|, k);
      } else {
        var r := RunEnd(hidden, k);
        CountsFrom(lines, blocks, hidden, r);
        HiddenRun(blocks, |lines|, hidden, k, r);
        var gap := Gap(StartOf(blocks, |lines|, r) - blocks[k].start);
        OneGap(gap.count);
        CountsConcat([gap], Items(lines, blocks, hidden, r));
      }
    }
  }

  lemma BlockInBody(blocks: seq<Block>, total: nat, k: nat)
    requires Ordered(blocks, total) && k < |blocks|
    ensures blocks[k].start < blocks[k].end <= total
  {
  }

  /** On a real cut the gaps stand for exactly the hidden lines, and the rest are shown. */
  lemma RenderingCounts(lines: seq<string>, blocks: seq<Block>, hidden: seq<bool>)
    requires Covers(lines, blocks, |lines|) && |hidden| == |blocks|
    ensures Ordered(blocks, |lines|)
    ensures Skipped(Items(lines, blocks, hidden, 0)) == HiddenLines(blocks, hidden)
    ensures Shown(Items(lines, blocks, hidden, 0)) == |lines| - HiddenLines(blocks, hidden)
  {
    CoverRange(lines, blocks);
    CountsFrom(lines, blocks, hidden, 0);
    assert blocks[..|blocks|] == blocks && hidden[..|blocks|] == hidden;
    assert HiddenBefore(blocks, hidden, 0) == 0;
  }

  lemma ShareBounds(n: real, total: real, low: real, high: real)
    requires total > 0.0 && low <= n / total < high
    ensures (1.0 - high) * total < total - n <= (1.0 - low) * total
    ensures high <= 1.0 ==> n < total
  {
    var share := n / total;
    assert share * total == n;
    assert (high - share) * total > 0.0;
    assert (share - low) * total >= 0.0;
  }

  /** More of the body is shown than lies above the ceiling, and no more than above the floor. */
  predicate ShareInWindow(p: Policy, shown: int, total: nat) {
    (1.0 - p.maxHidden) * total as real < shown as real <= (1.0 - p.minPrune) * total as real
  }

  lemma PrunedInWindow(p: Policy, errorPresent: bool, hiddenLines: int, total: nat, spilled: bool)
    requires total > 0 && Decides(p, errorPresent, hiddenLines, total, spilled, Pruned)
    ensures hiddenLines != 0 && ShareInWindow(p, total - hiddenLines, total)
    ensures p.maxHidden <= 1.0 ==> hiddenLines < total
  {
    ShareBounds(hiddenLines as real, total as real, p.minPrune, p.maxHidden);
  }

  /** What a rewritten result shows: with a ceiling of at most one some block is always left,
      some block is hidden, and the lines shown are within the window. */
  lemma PrunedShowsAShare(lines: seq<string>, blocks: seq<Block>, hidden: seq<bool>, p: Policy, errorPresent: bool, spilled: bool)
    requires Covers(lines, blocks, |lines|) && |hidden| == |blocks| && lines != []
    requires Decides(p, errorPresent, HiddenLines(blocks, hidden), |lines|, spilled, Pruned)
    ensures Ordered(blocks, |lines|) && ShareInWindow(p, Shown(Items(lines, blocks, hidden, 0)), |lines|)
    ensures p.maxHidden <= 1.0 ==> exists k :: 0 <= k < |blocks| && !hidden[k]
    ensures exists k :: 0 <= k < |blocks| && hidden[k]
  {
    hide Covers, Items, Shown, HiddenLines, Decides, Ordered, ShareInWindow;
    RenderingCounts(lines, blocks, hidden);
    PrunedInWindow(p, errorPresent, HiddenLines(blocks, hidden), |lines|, spilled);
    AllOrNothing(lines, blocks, hidden);
  }

  lemma AllOrNothing(lines: seq<string>, blocks: seq<Block>, hidden: seq<bool>)
    requires Covers(lines, blocks, |lines|) && |hidden| == |blocks|
    ensures (forall k :: 0 <= k < |blocks| ==> hidden[k]) ==> HiddenLines(blocks, hidden) == |lines|
    ensures (forall k :: 0 <= k < |blocks| ==> !hidden[k]) ==> HiddenLines(blocks, hidden) == 0
  {
    CoverRange(lines, blocks);
    assert blocks[..|blocks|] == blocks && hidden[..|blocks|] == hidden;
    if forall k :: 0 <= k < |blocks| ==> hidden[k] {
      HiddenRun(blocks, |lines|, hidden, 0, |blocks|);
      assert HiddenBefore(blocks, hidden, 0) == 0;
    }
    if forall k :: 0 <= k < |blocks| ==> !hidden[k] {
      NothingHidden(blocks, hidden);
    }
  }

  lemma {:induction false} NothingHidden(blocks: seq<Block>, hidden: seq<bool>)
    requires |hidden| == |blocks| && forall k :: 0 <= k < |blocks| ==> !hidden[k]
    ensures HiddenLines(blocks, hidden) == 0
  {
    if blocks != [] {
      NothingHidden(blocks[..|blocks| - 1], hidden[..|blocks| - 1]);
    }
  }

  predicate NoAdjacentGaps(items: seq<Item>) {
    forall i, j :: 0 <= i < |items| && j == i + 1 && j < |items| ==> !(items[i].Gap? && items[j].Gap?)
  }

  /** No two gaps stand together: a run of hidden blocks is one marker. */
  lemma {:induction false} GapsAreMerged(lines: seq<string>, blocks: seq<Block>, hidden: seq<bool>, k: nat)
    requires Ordered(blocks, |lines|) && |hidden| == |blocks| && k <= |blocks|
    ensures NoAdjacentGaps(Items(lines, blocks, hidden, k))
    ensures k < |blocks| && !hidden[k] ==> Items(lines, blocks, hidden, k) != [] && Items(lines, blocks, hidden, k)[0].Line?
    decreases |blocks| - k
  {
    hide Items, NoAdjacentGaps;
    if k == |blocks| {
      NothingLeft(lines, blocks, hidden);
      NoGaps([]);
    } else {
      ItemsAt(lines, blocks, hidden, k);
      if !hidden[k] {
        GapsAreMerged(lines, blocks, hidden, k + 1);
        LinesThen(Lines(lines, blocks[k].start, blocks[k].end), Items(lines, blocks, hidden, k + 1));
      } else {
        var r := RunEnd(hidden, k);
        GapsAreMerged(lines, blocks, hidden, r);
        if r == |blocks| {
          NothingLeft(lines, blocks, hidden);
        }
        GapThen(StartOf(blocks, |lines|, r) - blocks[k].start, Items(lines, blocks, hidden, r));
      }
    }
  }

  lemma NoGaps(items: seq<Item>)
    requires items == []
    ensures NoAdjacentGaps(items)
  {
  }

  lemma LinesThen(shown: seq<Item>, rest: seq<Item>)
    requires NoAdjacentGaps(rest) && forall k :: 0 <= k < |shown| ==> shown[k].Line?
    ensures NoAdjacentGaps(shown + rest)
  {
  }

  lemma GapThen(count: int, rest: seq<Item>)
    requires NoAdjacentGaps(rest) && (rest != [] ==> rest[0].Line?)
    ensures NoAdjacentGaps([Gap(count)] + rest)
  {
    var items := [Gap(count)] + rest;
    forall i, j | 0 <= i < |items| && j == i + 1 && j < |items| ensures !(items[i].Gap? && items[j].Gap?) {
      if i > 0 {
        var a, b := i - 1, j - 1;
        assert items[i] == rest[a] && items[j] == rest[b];
        assert !(rest[a].Gap? && rest[b].Gap?);
      }
    }
  }
}
