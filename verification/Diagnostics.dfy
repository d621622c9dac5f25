/** Background post-edit diagnostics: the collector's critical sections, and every
    interleaving of its worker with the loop that enqueues and drains. */
module Diagnostics {
  import opened Text

  /* ---- the shared fields, as a value ---- */

  /** What the mutex guards, with two histories: how often each path was enqueued, and at
      which count its last completed check began. */
  datatype Shared = Shared(
    queue: seq<string>,
    queued: set<string>,
    results: map<string, string>,
    working: Option<nat>,
    spawned: nat,
    versions: map<string, nat>,
    checked: map<string, nat>)

  function Version(s: Shared, path: string): nat {
    if path in s.versions then s.versions[path] else 0
  }

  function EnqueueOne(s: Shared, path: string): Shared {
    var edited := s.(versions := s.versions[path := Version(s, path) + 1]);
    if path in s.queued then edited
    else edited.(queued := s.queued + {path}, results := s.results - {path}, queue := s.queue + [path])
  }

  function EnqueueAll(s: Shared, paths: seq<string>): Shared {
    if paths == [] then s else EnqueueOne(EnqueueAll(s, paths[..|paths| - 1]), paths[|paths| - 1])
  }

  /** What an enqueue does to one path: it is queued if it was not, and then its block goes. */
  ghost predicate PathEnqueued(s: Shared, t: Shared, paths: seq<string>, p: string) {
    && (p in t.queued <==> p in s.queued || p in paths)
    && (p in t.results <==> p in s.results && (p !in paths || p in s.queued))
    && (p in t.results ==> t.results[p] == s.results[p])
    && Version(t, p) >= Version(s, p) && (Version(t, p) == Version(s, p) <==> p !in paths)
  }

  /** The new paths join the queue in the order in which they are first given. */
  ghost predicate JoinInOrder(s: Shared, t: Shared, paths: seq<string>) {
    && s.queue <= t.queue
    && var joined := t.queue[|s.queue|..];
       && (forall p :: p in joined <==> p in paths && p !in s.queued)
       && forall i, j :: 0 <= i < j < |joined| ==> GivenFirst(paths, joined[i], joined[j])
  }

  ghost predicate GivenFirst(paths: seq<string>, p: string, q: string) {
    exists a :: 0 <= a < |paths| && paths[a] == p && q !in paths[..a + 1]
  }

  /** What an enqueue does to the queue and to every path. */
  ghost predicate EnqueuedInOrder(s: Shared, t: Shared, paths: seq<string>) {
    JoinInOrder(s, t, paths) && forall p :: PathEnqueued(s, t, paths, p)
  }

  lemma {:induction false} PathEnqueuedIs(s: Shared, paths: seq<string>, p: string)
    ensures PathEnqueued(s, EnqueueAll(s, paths), paths, p)
  {
    if paths != [] {
      var n := |paths| - 1;
      PathEnqueuedIs(s, paths[..n], p);
      PathEnqueuedIs(s, paths[..n], paths[n]);
      assert paths == paths[..n] + [paths[n]];
    }
  }

  lemma {:induction false} JoinInOrderIs(s: Shared, paths: seq<string>)
    ensures JoinInOrder(s, EnqueueAll(s, paths), paths)
  {
    if paths != [] {
      var n := |paths| - 1;
      var mid := EnqueueAll(s, paths[..n]);
      JoinInOrderIs(s, paths[..n]);
      PathEnqueuedIs(s, paths[..n], paths[n]);
      JoinOne(s, mid, paths[..n], paths[n]);
      assert paths == paths[..n] + [paths[n]];
    }
  }

  lemma JoinOne(s: Shared, mid: Shared, before: seq<string>, p: string)
    requires JoinInOrder(s, mid, before) && (p in mid.queued <==> p in s.queued || p in before)
    ensures JoinInOrder(s, EnqueueOne(mid, p), before + [p])
  {
    var t, paths := EnqueueOne(mid, p), before + [p];
    var old', joined := mid.queue[|s.queue|..], t.queue[|s.queue|..];
    assert joined == old' + if p in mid.queued then [] else [p];
    forall i, j | 0 <= i < j < |joined| ensures GivenFirst(paths, joined[i], joined[j]) {
      assert joined[i] == old'[i];
      if j < |old'| {
        assert GivenFirst(before, old'[i], old'[j]);
        var a :| 0 <= a < |before| && before[a] == old'[i] && old'[j] !in before[..a + 1];
        assert paths[..a + 1] == before[..a + 1] && paths[a] == joined[i];
      } else {
        assert old'[i] in before;
        var a :| 0 <= a < |before| && before[a] == joined[i];
        assert paths[..a + 1] == before[..a + 1] && forall x :: x in before[..a + 1] ==> x in before;
        assert paths[a] == joined[i];
      }
    }
  }

  /** A worker is started when there is work and none is running. */
  function Spawned(s: Shared): Shared {
    if s.working.None? && s.queue != [] then s.(working := Some(s.spawned), spawned := s.spawned + 1) else s
  }

  function Enqueued(s: Shared, paths: seq<string>): Shared {
    if paths == [] then s else Spawned(EnqueueAll(s, paths))
  }

  lemma EnqueueNext(s: Shared, paths: seq<string>, i: nat)
    requires i < |paths|
    ensures EnqueueAll(s, paths[..0]) == s
    ensures EnqueueAll(s, paths[..i + 1]) == EnqueueOne(EnqueueAll(s, paths[..i]), paths[i])
  {
    assert paths[..i + 1][..i] == paths[..i];
  }

  lemma EnqueuedIs(s: Shared, paths: seq<string>)
    ensures EnqueuedInOrder(s, Enqueued(s, paths), paths)
    ensures var t := Enqueued(s, paths);
      if s.working.None? && paths != [] && t.queue != [] then t.working == Some(s.spawned) && t.spawned == s.spawned + 1
      else t.working == s.working && t.spawned == s.spawned
  {
    var t := EnqueueAll(s, paths);
    JoinInOrderIs(s, paths);
    WorkerStays(s, paths);
    forall p ensures PathEnqueued(s, t, paths, p) && PathEnqueued(s, Spawned(t), paths, p) {
      PathEnqueuedIs(s, paths, p);
    }
    SpawnedJoins(s, t, paths);
  }

  /** Starting the worker changes nothing about the queue. */
  lemma SpawnedJoins(s: Shared, t: Shared, paths: seq<string>)
    requires JoinInOrder(s, t, paths)
    ensures JoinInOrder(s, Spawned(t), paths)
  {
    assert Spawned(t).queue == t.queue;
  }

  lemma {:induction false} WorkerStays(s: Shared, paths: seq<string>)
    ensures EnqueueAll(s, paths).working == s.working && EnqueueAll(s, paths).spawned == s.spawned
  {
    if paths != [] {
      WorkerStays(s, paths[..|paths| - 1]);
    }
  }

  function Taken(s: Shared): Shared
    requires s.queue != []
  {
    s.(queue := s.queue[1..], queued := s.queued - {s.queue[0]})
  }

  function StoredResult(s: Shared, path: string, began: nat, block: string): Shared {
    s.(results := if block != "" then s.results[path := block] else s.results - {path}, checked := s.checked[path := began])
  }

  /* ---- the collector ---- */

  class AsyncDiagnostics {
    var queue: seq<string>
    var queued: set<string>
    var results: map<string, string>
    var working: Option<nat>
    var spawned: nat
    ghost var versions: map<string, nat>
    ghost var checked: map<string, nat>

    ghost function State(): Shared
      reads this
    {
      Shared(queue, queued, results, working, spawned, versions, checked)
    }

    constructor ()
      ensures State() == Shared([], {}, map[], None, 0, map[], map[])
    {
      queue, queued, results, working, spawned := [], {}, map[], None, 0;
      versions, checked := map[], map[];
    }

    /** Schedules changed files; a path already queued is checked once, in its final state. */
    method Enqueue(paths: seq<string>) returns (start: Option<nat>)
      modifies this
      ensures State() == Enqueued(old(State()), paths)
      ensures EnqueuedInOrder(old(State()), State(), paths)
      ensures if old(working).None? && paths != [] && queue != []
        then start == working && working == Some(old(spawned)) && spawned == old(spawned) + 1
        else start == None && working == old(working) && spawned == old(spawned)
    {
      hide EnqueuedInOrder, EnqueueAll;
      EnqueuedIs(State(), paths);
      start := None;
      if |paths| == 0 {
        return None;
      }
      EnqueueNext(State(), paths, 0);
      for i := 0 to |paths|
        invariant State() == EnqueueAll(old(State()), paths[..i])
        invariant working == old(working) && spawned == old(spawned)
      {
        EnqueueNext(old(State()), paths, i);
        var path := paths[i];
        versions := versions[path := Version(State(), path) + 1];
        if path !in queued {
          queued := queued + {path};
          results := results - {path};
          queue := queue + [path];
        }
      }
      assert paths[..|paths|] == paths;
      if working.None? && |queue| > 0 {
        working, spawned := Some(spawned), spawned + 1;
        start := working;
      }
    }

    /** The worker's first critical section: the next path, or nothing and the worker ends. */
    method Next(canceled: bool) returns (path: Option<string>)
      modifies this
      ensures old(queue) == [] || canceled ==> path == None && State() == old(State()).(working := None)
      ensures old(queue) != [] && !canceled ==>
        && path == Some(old(queue)[0]) && State() == Taken(old(State()))
        && queue == old(queue)[1..] && queued == old(queued) - {path.value} && working == old(working)
        && results == old(results)
    {
      if |queue| == 0 || canceled {
        working := None;
        return None;
      }
      path := Some(queue[0]);
      queued := queued - {queue[0]};
      queue := queue[1..];
    }

    /** The worker's second critical section: keep the block, or clear it when the check is clean. */
    method Store(path: string, block: string, ghost began: nat)
      modifies this
      ensures State() == StoredResult(old(State()), path, began, block)
      ensures results == if block == "" then old(results) - {path} else old(results)[path := block]
      ensures queue == old(queue) && queued == old(queued) && working == old(working)
    {
      if block != "" {
        results := results[path := block];
      } else {
        results := results - {path};
      }
      checked := checked[path := began];
    }

    /** The drain's second critical section: every completed block, consumed. */
    method Drain() returns (blocks: map<string, string>)
      modifies this
      ensures blocks == old(results)
      ensures State() == old(State()).(results := map[])
    {
      blocks := results;
      if |results| != 0 {
        results := map[];
      }
    }
  }

  /* ---- the whole protocol ---- */

  datatype Worker = NoWorker | AtTop(id: nat) | Checking(id: nat, path: string, began: nat)

  /** The loop's goroutine: elsewhere, waiting for a worker's channel, or about to deliver. */
  datatype Loop = Elsewhere | WaitingFor(id: nat) | Ready

  datatype System = System(s: Shared, worker: Worker, leaving: set<nat>, closed: set<nat>, main: Loop, canceled: bool)

  datatype Event =
    | Enqueue(paths: seq<string>)
    | Take
    | Store(block: string)
    | Leave
    | Close(id: nat)
    | Look
    | Woken
    | GiveUp
    | Deliver
    | Cancel

  predicate Enabled(y: System, e: Event) {
    match e
    case Enqueue(_) => y.main == Elsewhere
    case Take => y.worker.AtTop? && y.s.queue != [] && !y.canceled
    case Store(_) => y.worker.Checking?
    case Leave => y.worker.AtTop? && (y.s.queue == [] || y.canceled)
    case Close(id) => id in y.leaving
    case Look => y.main == Elsewhere
    case Woken => y.main.WaitingFor? && y.main.id in y.closed
    case GiveUp => y.main.WaitingFor?
    case Deliver => y.main == Ready
    case Cancel => true
  }

  function After(y: System, e: Event): System
    requires Enabled(y, e)
  {
    match e
    case Enqueue(paths) =>
      var s := Enqueued(y.s, paths);
      y.(s := s, worker := if y.s.working.None? && s.working.Some? then AtTop(s.working.value) else y.worker)
    case Take => y.(s := Taken(y.s), worker := Checking(y.worker.id, y.s.queue[0], Version(y.s, y.s.queue[0])))
    case Store(block) =>
      y.(s := StoredResult(y.s, y.worker.path, y.worker.began, block), worker := AtTop(y.worker.id))
    case Leave => y.(s := y.s.(working := None), worker := NoWorker, leaving := y.leaving + {y.worker.id})
    case Close(id) => y.(leaving := y.leaving - {id}, closed := y.closed + {id})
    case Look => y.(main := if y.s.working.Some? then WaitingFor(y.s.working.value) else Ready)
    case Woken => y.(main := Ready)
    case GiveUp => y.(main := Elsewhere)
    case Deliver => y.(s := y.s.(results := map[]), main := Elsewhere)
    case Cancel => y.(canceled := true)
  }

  /** The block stored for a path was produced by a check begun after its last enqueue. */
  predicate IsFresh(s: Shared, path: string) {
    path in s.checked && s.checked[path] == Version(s, path)
  }

  predicate BeingChecked(w: Worker, path: string) {
    w.Checking? && w.path == path
  }

  ghost predicate QueueInv(s: Shared) {
    && (forall i, j :: 0 <= i < j < |s.queue| ==> s.queue[i] != s.queue[j])
    && (forall p :: p in s.queue <==> p in s.queued)
  }

  /** A stored block is fresh exactly when its path is neither queued nor being checked,
      and no edit goes unchecked. */
  predicate FreshAt(s: Shared, w: Worker, p: string) {
    && (p in s.checked ==> s.checked[p] <= Version(s, p))
    && (p in s.results ==> p in s.checked && (IsFresh(s, p) <==> p !in s.queued && !BeingChecked(w, p)))
    && (Version(s, p) > 0 ==> p in s.queued || IsFresh(s, p) || BeingChecked(w, p))
    && (BeingChecked(w, p) ==> w.began <= Version(s, p) && (w.began < Version(s, p) <==> p in s.queued))
  }

  ghost predicate FreshnessInv(s: Shared, w: Worker) {
    forall p :: FreshAt(s, w, p)
  }

  ghost predicate WorkerInv(y: System) {
    && (y.s.working.None? <==> y.worker.NoWorker?)
    && (y.s.working.Some? ==> y.s.working.value == y.worker.id && y.worker.id < y.s.spawned
                              && y.worker.id !in y.leaving && y.worker.id !in y.closed)
    && (forall id: nat :: id < y.s.spawned <==>
          id in y.leaving || id in y.closed || (y.s.working.Some? && id == y.s.working.value))
    && (!y.canceled && y.s.queue != [] ==> y.s.working.Some?)
    && (y.main.WaitingFor? ==> y.main.id < y.s.spawned && (y.s.working.Some? ==> y.s.working.value == y.main.id))
    && (y.main == Ready ==> y.s.working.None?)
  }

  ghost predicate Inv(y: System) {
    QueueInv(y.s) && FreshnessInv(y.s, y.worker) && WorkerInv(y)
  }

  const START := System(Shared([], {}, map[], None, 0, map[], map[]), NoWorker, {}, {}, Elsewhere, false)

  lemma StartInv()
    ensures Inv(START)
  {
  }

  lemma EnqueueOneKeeps(s: Shared, w: Worker, path: string)
    requires QueueInv(s) && FreshnessInv(s, w)
    ensures QueueInv(EnqueueOne(s, path)) && FreshnessInv(EnqueueOne(s, path), w)
    ensures EnqueueOne(s, path).working == s.working && EnqueueOne(s, path).spawned == s.spawned
  {
    forall p ensures FreshAt(EnqueueOne(s, path), w, p) {
      assert FreshAt(s, w, p);
    }
  }

  lemma {:induction false} EnqueueAllKeeps(s: Shared, w: Worker, paths: seq<string>)
    requires QueueInv(s) && FreshnessInv(s, w)
    ensures QueueInv(EnqueueAll(s, paths)) && FreshnessInv(EnqueueAll(s, paths), w)
    ensures EnqueueAll(s, paths).working == s.working && EnqueueAll(s, paths).spawned == s.spawned
  {
    hide EnqueueOne, QueueInv, FreshnessInv;
    if paths != [] {
      EnqueueAllKeeps(s, w, paths[..|paths| - 1]);
      EnqueueOneKeeps(EnqueueAll(s, paths[..|paths| - 1]), w, paths[|paths| - 1]);
    }
  }

  /** Starting a worker at the top of its loop checks nothing yet. */
  lemma IdleWorkersAgree(s: Shared, w: Worker, w': Worker)
    requires FreshnessInv(s, w) && !w.Checking? && !w'.Checking?
    ensures FreshnessInv(s, w')
  {
    forall p ensures FreshAt(s, w', p) {
      assert FreshAt(s, w, p);
    }
  }

  lemma EnqueueKeeps(y: System, paths: seq<string>)
    requires Inv(y) && Enabled(y, Enqueue(paths))
    ensures Inv(After(y, Enqueue(paths)))
  {
    hide EnqueueAll, FreshnessInv, QueueInv;
    EnqueueAllKeeps(y.s, y.worker, paths);
    var s := EnqueueAll(y.s, paths);
    SpawnKeeps(s, y.worker);
    if y.s.working.None? {
      IdleWorkersAgree(s, NoWorker, AtTop(s.spawned));
      SpawnKeeps(s, AtTop(s.spawned));
    }
  }

  lemma SpawnKeeps(s: Shared, w: Worker)
    requires QueueInv(s) && FreshnessInv(s, w)
    ensures QueueInv(Spawned(s)) && FreshnessInv(Spawned(s), w)
  {
    forall p ensures FreshAt(Spawned(s), w, p) {
      assert FreshAt(s, w, p);
    }
  }

  lemma TakeKeeps(y: System)
    requires Inv(y) && Enabled(y, Take)
    ensures Inv(After(y, Take))
  {
    var z := After(y, Take);
    assert forall p :: p in y.s.queue <==> p == y.s.queue[0] || p in y.s.queue[1..];
    forall p ensures FreshAt(z.s, z.worker, p) {
      assert FreshAt(y.s, y.worker, p);
    }
  }

  lemma StoreKeeps(y: System, block: string)
    requires Inv(y) && Enabled(y, Store(block))
    ensures Inv(After(y, Store(block)))
  {
    var z := After(y, Store(block));
    forall p ensures FreshAt(z.s, z.worker, p) {
      assert FreshAt(y.s, y.worker, p);
    }
  }

  lemma OthersKeep(y: System, e: Event)
    requires Inv(y) && Enabled(y, e) && !e.Enqueue? && !e.Take? && !e.Store?
    ensures Inv(After(y, e))
  {
    var z := After(y, e);
    forall p ensures FreshAt(z.s, z.worker, p) {
      assert FreshAt(y.s, y.worker, p);
    }
  }

  /** Every atomic step of either goroutine keeps the invariant. */
  lemma EventKeepsInv(y: System, e: Event)
    requires Inv(y) && Enabled(y, e)
    ensures Inv(After(y, e))
  {
    hide Inv, After;
    match e {
      case Enqueue(paths) => EnqueueKeeps(y, paths);
      case Take => TakeKeeps(y);
      case Store(block) => StoreKeeps(y, block);
      case _ => OthersKeep(y, e);
    }
  }

  /* ---- every run ---- */

  ghost predicate IsRun(ys: seq<System>, es: seq<Event>) {
    && |ys| == |es| + 1 && ys[0] == START
    && forall k :: 0 <= k < |es| ==> Enabled(ys[k], es[k]) && ys[k + 1] == After(ys[k], es[k])
  }

  lemma {:induction false} RunsKeepInv(ys: seq<System>, es: seq<Event>, k: nat)
    requires IsRun(ys, es) && k <= |es|
    ensures Inv(ys[k])
  {
    hide Inv, Enabled, After;
    if k == 0 {
      StartInv();
    } else {
      RunsKeepInv(ys, es, k - 1);
      EventKeepsInv(ys[k - 1], es[k - 1]);
    }
  }

  /* -- which check a stored block comes from -- */

  /** Event `j` ends a check of the path. */
  predicate EndsCheck(ys: seq<System>, es: seq<Event>, path: string, j: nat) {
    j < |es| && j < |ys| && es[j].Store? && ys[j].worker.Checking? && ys[j].worker.path == path
  }

  /** Event `j` ends the last check of the path among the first `k` events. */
  predicate LastCheck(ys: seq<System>, es: seq<Event>, path: string, j: nat, k: nat) {
    j < k && EndsCheck(ys, es, path, j) && forall t: nat :: j < t < k ==> !EndsCheck(ys, es, path, t)
  }

  /** The worker took the path off the queue at event `i`, and did nothing else before event `j`. */
  predicate BeganAt(ys: seq<System>, es: seq<Event>, path: string, i: nat, j: nat) {
    && i < j <= |es| && i < |ys| && es[i] == Take && ys[i].s.queue != [] && ys[i].s.queue[0] == path
    && forall t :: i < t < j ==> !WorkerEvent(es[t])
  }

  /** No event from `i` up to `k` enqueues the path. */
  predicate Unedited(es: seq<Event>, path: string, i: nat, k: nat) {
    forall t :: i <= t < k && t < |es| && es[t].Enqueue? ==> path !in es[t].paths
  }

  /** Event `t` takes stored blocks of the path away. */
  predicate Clears(ys: seq<System>, es: seq<Event>, path: string, t: nat) {
    t < |es| && t < |ys| && (es[t] == Deliver || (es[t].Enqueue? && path in es[t].paths && path !in ys[t].s.queued))
  }

  /** The block of the check that event `j` ends still stands after `k` events. */
  predicate Stands(ys: seq<System>, es: seq<Event>, path: string, j: nat, k: nat) {
    LastCheck(ys, es, path, j, k) && es[j].block != "" && forall t: nat :: j < t < k ==> !Clears(ys, es, path, t)
  }

  /** What one event does to the stored block of a path. */
  lemma BlockAfter(y: System, e: Event, path: string)
    requires Enabled(y, e)
    ensures var before, after := y.s.results, After(y, e).s.results;
      if e.Store? && y.worker.path == path then
        (path in after <==> e.block != "") && (path in after ==> after[path] == e.block)
      else if e == Deliver || (e.Enqueue? && path in e.paths && path !in y.s.queued) then path !in after
      else (path in after <==> path in before) && (path in after ==> after[path] == before[path])
  {
    if e.Enqueue? {
      EnqueuedIs(y.s, e.paths);
      assert PathEnqueued(y.s, Enqueued(y.s, e.paths), e.paths, path);
    }
  }

  /** A path has a stored block exactly when its last check found one and nothing has taken it
      away since, and it is that block: after a clean check there is none. */
  lemma {:induction false} StoredBlockIs(ys: seq<System>, es: seq<Event>, path: string, k: nat) returns (j: int)
    requires IsRun(ys, es) && k <= |es|
    ensures path in ys[k].s.results <==> j >= 0
    ensures j >= 0 ==> Stands(ys, es, path, j, k) && es[j] == Store(ys[k].s.results[path])
    ensures j < 0 ==> forall t: nat :: !Stands(ys, es, path, t, k)
  {
    hide Enabled, After;
    j := k - 1;
    if k == 0 {
      assert ys[0] == START;
    } else {
      BlockAfter(ys[k - 1], es[k - 1], path);
      if EndsCheck(ys, es, path, k - 1) {
        if es[k - 1].block == "" {
          j := -1;
        }
      } else {
        var before := StoredBlockIs(ys, es, path, k - 1);
        StandsLonger(ys, es, path, k);
        j := if Clears(ys, es, path, k - 1) then -1 else before;
        if es[k - 1].Store? {
          StoreIsCheck(ys[k - 1], es[k - 1]);
        }
      }
    }
  }

  lemma StoreIsCheck(y: System, e: Event)
    requires Enabled(y, e) && e.Store?
    ensures y.worker.Checking?
  {
  }

  lemma StandsLonger(ys: seq<System>, es: seq<Event>, path: string, k: nat)
    requires 0 < k <= |es| && |ys| == |es| + 1 && !EndsCheck(ys, es, path, k - 1)
    ensures forall t: nat :: Stands(ys, es, path, t, k) <==> Stands(ys, es, path, t, k - 1) && !Clears(ys, es, path, k - 1)
  {
    hide EndsCheck, Clears;
  }

  /** The recorded count is the one at which the last check began. */
  lemma {:induction false} LastCheckIs(ys: seq<System>, es: seq<Event>, path: string, k: nat) returns (j: int)
    requires IsRun(ys, es) && k <= |es|
    ensures path in ys[k].s.checked <==> j >= 0
    ensures j >= 0 ==> LastCheck(ys, es, path, j, k) && ys[k].s.checked[path] == ys[j].worker.began
  {
    hide Enabled, After;
    j := k - 1;
    if k == 0 {
      assert ys[0] == START;
    } else {
      CheckedAfter(ys[k - 1], es[k - 1], path);
      if !EndsCheck(ys, es, path, k - 1) {
        j := LastCheckIs(ys, es, path, k - 1);
      }
    }
  }

  lemma {:induction false} CheckedStays(s: Shared, paths: seq<string>)
    ensures EnqueueAll(s, paths).checked == s.checked
  {
    if paths != [] {
      CheckedStays(s, paths[..|paths| - 1]);
    }
  }

  lemma CheckedAfter(y: System, e: Event, path: string)
    requires Enabled(y, e)
    ensures After(y, e).s.checked == if e.Store? then y.s.checked[y.worker.path := y.worker.began] else y.s.checked
    ensures e.Store? ==> y.worker.Checking?
  {
    if e.Enqueue? {
      CheckedStays(y.s, e.paths);
    }
  }

  lemma {:induction false} CheckBegan(ys: seq<System>, es: seq<Event>, j: nat) returns (i: nat)
    requires IsRun(ys, es) && j <= |es| && ys[j].worker.Checking?
    ensures BeganAt(ys, es, ys[j].worker.path, i, j) && ys[j].worker.began == Version(ys[i].s, ys[j].worker.path)
  {
    hide Enabled, After;
    assert j > 0;
    i := j - 1;
    WorkerAfter(ys[i], es[i]);
    if es[i] != Take {
      i := CheckBegan(ys, es, j - 1);
    }
  }

  lemma WorkerAfter(y: System, e: Event)
    requires Enabled(y, e) && After(y, e).worker.Checking?
    ensures var w := After(y, e).worker;
      if e == Take then y.s.queue != [] && w.path == y.s.queue[0] && w.began == Version(y.s, w.path)
      else w == y.worker && !WorkerEvent(e)
  {
    hide EnqueueAll, EnqueueOne;
  }

  /** The count of a path grows exactly with its edits. */
  lemma {:induction false} EditsCount(ys: seq<System>, es: seq<Event>, path: string, i: nat, k: nat)
    requires IsRun(ys, es) && i <= k <= |es|
    ensures Version(ys[i].s, path) <= Version(ys[k].s, path)
    ensures Version(ys[i].s, path) == Version(ys[k].s, path) <==> Unedited(es, path, i, k)
    decreases k
  {
    hide Enabled, After, Version;
    if i < k {
      EditsCount(ys, es, path, i, k - 1);
      VersionAfter(ys[k - 1], es[k - 1], path);
    }
  }

  lemma VersionAfter(y: System, e: Event, path: string)
    requires Enabled(y, e)
    ensures if e.Enqueue? && path in e.paths then Version(After(y, e).s, path) > Version(y.s, path)
            else Version(After(y, e).s, path) == Version(y.s, path)
  {
    if e.Enqueue? {
      EnqueuedIs(y.s, e.paths);
      assert PathEnqueued(y.s, Enqueued(y.s, e.paths), e.paths, path);
    }
  }

  /** The check behind a stored block, and that the file was not edited since it began exactly
      when the block is fresh. */
  lemma LastCheckBegan(ys: seq<System>, es: seq<Event>, path: string, k: nat) returns (i: nat, j: nat)
    requires IsRun(ys, es) && k <= |es| && path in ys[k].s.checked
    ensures LastCheck(ys, es, path, j, k) && BeganAt(ys, es, path, i, j)
    ensures Unedited(es, path, i, k) <==> IsFresh(ys[k].s, path)
  {
    hide IsRun, LastCheck, BeganAt, Unedited;
    var at := LastCheckIs(ys, es, path, k);
    j := at;
    LastCheckChecks(ys, es, path, j, k);
    i := CheckBegan(ys, es, j);
    BeganBefore(ys, es, path, i, j);
    EditsCount(ys, es, path, i, k);
  }

  lemma LastCheckChecks(ys: seq<System>, es: seq<Event>, path: string, j: nat, k: nat)
    requires LastCheck(ys, es, path, j, k)
    ensures j < k && j < |es| && j < |ys| && ys[j].worker.Checking? && ys[j].worker.path == path
  {
  }

  lemma BeganBefore(ys: seq<System>, es: seq<Event>, path: string, i: nat, j: nat)
    requires BeganAt(ys, es, path, i, j)
    ensures i < j
  {
  }

  /** What a drain delivers, in any run: the block the last check of the file found, and the
      file was not edited since that check began exactly when it is not queued again. Without
      a cancellation nothing is queued, so no block is out of date. */
  lemma DeliveredBlocksAreFresh(ys: seq<System>, es: seq<Event>, k: nat, path: string) returns (i: nat, j: nat)
    requires IsRun(ys, es) && k < |es| && es[k] == Deliver && path in ys[k].s.results
    ensures LastCheck(ys, es, path, j, k) && BeganAt(ys, es, path, i, j) && es[j] == Store(ys[k].s.results[path])
    ensures Unedited(es, path, i, k) <==> path !in ys[k].s.queue
    ensures !ys[k].canceled ==> ys[k].s.queue == [] && Unedited(es, path, i, k)
  {
    hide Enabled, After, Unedited, BeganAt, EndsCheck;
    RunsKeepInv(ys, es, k);
    DeliverIsReady(ys[k]);
    assert FreshAt(ys[k].s, ys[k].worker, path);
    i, j := LastCheckBegan(ys, es, path, k);
    var at := StoredBlockIs(ys, es, path, k);
  }

  lemma DeliverIsReady(y: System)
    requires Enabled(y, Deliver)
    ensures y.main == Ready
  {
  }

  /** Once the worker is gone, uncanceled, every edited file was checked from its last edit on. */
  lemma EditsAreChecked(ys: seq<System>, es: seq<Event>, k: nat, t: nat, path: string) returns (i: nat, j: nat)
    requires IsRun(ys, es) && t < k <= |es| && es[t].Enqueue? && path in es[t].paths
    requires !ys[k].canceled && ys[k].s.working.None?
    ensures t < i && LastCheck(ys, es, path, j, k) && BeganAt(ys, es, path, i, j) && Unedited(es, path, i, k)
  {
    hide Enabled, After, BeganAt, EndsCheck;
    RunsKeepInv(ys, es, k);
    EditsCount(ys, es, path, t, k);
    QuietMeansChecked(ys[k], path);
    i, j := LastCheckBegan(ys, es, path, k);
  }

  /** A new worker never joins a live one: one is started only when none is running. */
  lemma AtMostOneWorker(ys: seq<System>, es: seq<Event>, k: nat)
    requires IsRun(ys, es) && k < |es| && es[k].Enqueue? && ys[k + 1].worker != ys[k].worker
    ensures ys[k].worker == NoWorker && ys[k].s.working.None?
  {
    RunsKeepInv(ys, es, k);
  }

  /** With a cancellation a run can deliver a block that predates the last edit: the file
      was edited during its check, and the worker left before checking it again. */
  lemma CanceledDrainCanBeStale(path: string, block: string) returns (ys: seq<System>, es: seq<Event>)
    requires block != ""
    ensures IsRun(ys, es) && es != [] && es[|es| - 1] == Deliver
    ensures ys[|es| - 1].s.results == map[path := block] && path in ys[|es| - 1].s.queue
  {
    hide IsRun;
    ys, es := [START], [];
    NothingYet();
    var y;
    ys, es, y := Extend(ys, es, START, Enqueue([path]));
    EnqueueOnce(START.s, path);
    ys, es, y := Extend(ys, es, y, Take);
    EnqueueOnce(y.s, path);
    ys, es, y := Extend(ys, es, y, Enqueue([path]));
    ys, es, y := Extend(ys, es, y, Cancel);
    ys, es, y := Extend(ys, es, y, Store(block));
    ys, es, y := Extend(ys, es, y, Leave);
    ys, es, y := Extend(ys, es, y, Look);
    ys, es, y := Extend(ys, es, y, Deliver);
  }

  /** An edit with an error reaches the loop: the check ends, the worker leaves, and the next
      drain delivers its block. */
  lemma ErrorIsDelivered(path: string, block: string) returns (ys: seq<System>, es: seq<Event>)
    requires block != ""
    ensures IsRun(ys, es) && es != [] && es[|es| - 1] == Deliver && Cancel !in es
    ensures ys[|es| - 1].s.results == map[path := block] && ys[|es|].s.results == map[]
  {
    hide IsRun;
    ys, es := [START], [];
    NothingYet();
    var y;
    ys, es, y := Extend(ys, es, START, Enqueue([path]));
    EnqueueOnce(START.s, path);
    ys, es, y := Extend(ys, es, y, Look);
    ys, es, y := Extend(ys, es, y, Take);
    ys, es, y := Extend(ys, es, y, Store(block));
    ys, es, y := Extend(ys, es, y, Leave);
    ys, es, y := Extend(ys, es, y, Close(0));
    ys, es, y := Extend(ys, es, y, Woken);
    ys, es, y := Extend(ys, es, y, Deliver);
  }

  lemma NothingYet()
    ensures IsRun([START], [])
  {
  }

  /** One more event at the end of a run. */
  lemma Extend(ys: seq<System>, es: seq<Event>, y: System, e: Event) returns (ys': seq<System>, es': seq<Event>, z: System)
    requires IsRun(ys, es) && |ys| == |es| + 1 && ys[|es|] == y && Enabled(y, e)
    ensures z == After(y, e) && IsRun(ys', es')
    ensures |ys'| == |es'| + 1 && |es'| == |es| + 1
    ensures ys'[|es'|] == z && ys'[|es'| - 1] == y && es' == es + [e]
  {
    hide After;
    z := After(y, e);
    ys', es' := ys + [z], es + [e];
  }

  lemma EnqueueOnce(s: Shared, path: string)
    ensures EnqueueAll(s, [path]) == EnqueueOne(s, path)
  {
    assert [path][..0] == [];
  }

  /** A stored block leaves the store, or changes, only by delivery, by a newer edit of its
      path, or by a newer check of it. */
  lemma ResultsAreNotLost(y: System, e: Event, path: string)
    requires Inv(y) && Enabled(y, e) && path in y.s.results
    ensures (path in After(y, e).s.results && After(y, e).s.results[path] == y.s.results[path])
      || e == Deliver
      || (e.Enqueue? && path in e.paths)
      || (e.Store? && BeingChecked(y.worker, path))
  {
    hide Inv;
    if e.Enqueue? && path !in e.paths {
      EnqueueAllSpares(y.s, e.paths, path);
    }
  }

  lemma {:induction false} EnqueueAllSpares(s: Shared, paths: seq<string>, path: string)
    requires path in s.results && path !in paths
    ensures path in EnqueueAll(s, paths).results && EnqueueAll(s, paths).results[path] == s.results[path]
  {
    if paths != [] {
      EnqueueAllSpares(s, paths[..|paths| - 1], path);
    }
  }

  /* ---- progress ---- */

  /** The worker's steps left before it leaves, if nothing more is enqueued. */
  function StepsLeft(y: System): nat {
    2 * |y.s.queue| + match y.worker case NoWorker => 0 case AtTop(_) => 1 case Checking(_, _, _) => 2
  }

  predicate WorkerEvent(e: Event) {
    e.Take? || e.Store? || e.Leave?
  }

  /** A live worker can always step, each of its steps counts down, and once it is gone every
      edit has a fresh check: nothing enqueued is forgotten. */
  lemma WorkerProgress(y: System) returns (e: Event)
    requires Inv(y) && y.s.working.Some?
    ensures WorkerEvent(e) && Enabled(y, e)
  {
    e := if y.worker.Checking? then Store("") else if y.s.queue == [] || y.canceled then Leave else Take;
  }

  lemma WorkerStepsCountDown(y: System, e: Event)
    requires Inv(y) && Enabled(y, e) && WorkerEvent(e)
    ensures StepsLeft(After(y, e)) == StepsLeft(y) - 1
  {
  }

  lemma QuietMeansChecked(y: System, path: string)
    requires Inv(y) && !y.canceled && y.s.working.None? && Version(y.s, path) > 0
    ensures IsFresh(y.s, path)
  {
    assert FreshAt(y.s, y.worker, path);
  }

  /** A waiting drain is never forgotten: its channel is closed, about to be closed, or
      that of a worker that can step. */
  lemma WaiterIsReleased(y: System) returns (e: Event)
    requires Inv(y) && y.main.WaitingFor?
    ensures Enabled(y, e) && (e == Woken || e == Close(y.main.id) || (WorkerEvent(e) && y.worker.id == y.main.id))
  {
    if y.main.id in y.closed {
      e := Woken;
    } else if y.main.id in y.leaving {
      e := Close(y.main.id);
    } else {
      e := WorkerProgress(y);
    }
  }
}
