/** Named preserved bodies and the three ways the compactor orders and merges them:
    first-seen order for skills, tools and instructions, last-seen order for edits. */
module Entries {

  datatype Entry = Entry(name: string, body: string)

  function Names(es: seq<Entry>): (names: seq<string>)
    ensures |names| == |es| && forall k :: 0 <= k < |es| ==> names[k] == es[k].name
  {
    seq(|es|, k requires 0 <= k < |es| => es[k].name)
  }

  function NameSet(xs: seq<string>): set<string> {
    set x | x in xs
  }

  /** Bodies by name; a later entry overrides an earlier one. */
  function Bodies(es: seq<Entry>): map<string, string> {
    if es == [] then map[] else Bodies(es[..|es| - 1])[es[|es| - 1].name := es[|es| - 1].body]
  }

  function Get(bodies: map<string, string>, name: string): string {
    if name in bodies then bodies[name] else ""
  }

  function Build(order: seq<string>, bodies: map<string, string>): (es: seq<Entry>)
    ensures |es| == |order|
    ensures forall k :: 0 <= k < |order| ==> es[k] == Entry(order[k], Get(bodies, order[k]))
  {
    seq(|order|, k requires 0 <= k < |order| => Entry(order[k], Get(bodies, order[k])))
  }

  predicate Distinct(xs: seq<string>) {
    forall i, j :: 0 <= i < j < |xs| ==> xs[i] != xs[j]
  }

  function FilterOut(xs: seq<string>, drop: set<string>): seq<string> {
    if xs == [] then []
    else FilterOut(xs[..|xs| - 1], drop) + if xs[|xs| - 1] in drop then [] else [xs[|xs| - 1]]
  }

  function FilterEntries(es: seq<Entry>, drop: set<string>): seq<Entry> {
    if es == [] then []
    else FilterEntries(es[..|es| - 1], drop) + if es[|es| - 1].name in drop then [] else [es[|es| - 1]]
  }

  /** Each name once, where it is first seen. */
  function FirstSeen(xs: seq<string>): seq<string> {
    if xs == [] then []
    else
      var before := FirstSeen(xs[..|xs| - 1]);
      if xs[|xs| - 1] in before then before else before + [xs[|xs| - 1]]
  }

  /** Each name once, where it is last seen. */
  function LastSeen(xs: seq<string>): seq<string> {
    if xs == [] then []
    else if xs[0] in xs[1..] then LastSeen(xs[1..])
    else [xs[0]] + LastSeen(xs[1..])
  }

  /* ---- orders ---- */

  lemma {:induction false} FilterOutConcat(a: seq<string>, b: seq<string>, drop: set<string>)
    ensures FilterOut(a + b, drop) == FilterOut(a, drop) + FilterOut(b, drop)
  {
    if b == [] {
      assert a + b == a;
    } else {
      assert (a + b)[..|a + b| - 1] == a + b[..|b| - 1];
      FilterOutConcat(a, b[..|b| - 1], drop);
    }
  }

  lemma {:induction false} FilterOutMembers(xs: seq<string>, drop: set<string>)
    ensures forall x :: x in FilterOut(xs, drop) <==> x in xs && x !in drop
    ensures Distinct(xs) ==> Distinct(FilterOut(xs, drop))
    ensures |FilterOut(xs, drop)| <= |xs|
  {
    if xs != [] {
      assert xs == xs[..|xs| - 1] + [xs[|xs| - 1]];
      FilterOutMembers(xs[..|xs| - 1], drop);
    }
  }

  lemma {:induction false} FirstSeenMembers(xs: seq<string>)
    ensures forall x :: x in FirstSeen(xs) <==> x in xs
    ensures Distinct(FirstSeen(xs))
    ensures xs == [] ==> FirstSeen(xs) == []
  {
    if xs != [] {
      assert xs == xs[..|xs| - 1] + [xs[|xs| - 1]];
      FirstSeenMembers(xs[..|xs| - 1]);
    }
  }

  lemma FilterOutSnoc(xs: seq<string>, x: string, drop: set<string>)
    ensures FilterOut(xs + [x], drop) == FilterOut(xs, drop) + if x in drop then [] else [x]
  {
    assert (xs + [x])[..|xs|] == xs;
  }

  lemma FirstSeenSnoc(xs: seq<string>, x: string)
    ensures FirstSeen(xs + [x]) == if x in xs then FirstSeen(xs) else FirstSeen(xs) + [x]
  {
    FirstSeenMembers(xs);
    assert (xs + [x])[..|xs|] == xs;
  }

  lemma {:induction false} FirstSeenConcat(a: seq<string>, b: seq<string>)
    ensures FirstSeen(a + b) == FirstSeen(a) + FilterOut(FirstSeen(b), NameSet(a))
  {
    hide FirstSeen, FilterOut, NameSet;
    if b == [] {
      assert a + b == a;
      FirstSeenMembers(b);
      FilterOutMembers(FirstSeen(b), NameSet(a));
    } else {
      var b', x := b[..|b| - 1], b[|b| - 1];
      FirstSeenConcat(a, b');
      FirstSeenConcatStep(a, b', x);
      assert b == b' + [x];
      assert a + b == a + b' + [x];
    }
  }

  lemma FirstSeenConcatStep(a: seq<string>, b: seq<string>, x: string)
    requires FirstSeen(a + b) == FirstSeen(a) + FilterOut(FirstSeen(b), NameSet(a))
    ensures FirstSeen(a + b + [x]) == FirstSeen(a) + FilterOut(FirstSeen(b + [x]), NameSet(a))
  {
    hide FirstSeen, FilterOut;
    FirstSeenSnoc(b, x);
    FirstSeenSnoc(a + b, x);
    assert x in a + b <==> x in NameSet(a) || x in b;
    FilterOutSnoc(FirstSeen(b), x, NameSet(a));
    var kept := FilterOut(FirstSeen(b), NameSet(a));
    assert FirstSeen(a) + kept + [x] == FirstSeen(a) + (kept + [x]);
  }

  lemma {:induction false} FirstSeenOfDistinct(xs: seq<string>)
    requires Distinct(xs)
    ensures FirstSeen(xs) == xs
  {
    if xs != [] {
      assert xs == xs[..|xs| - 1] + [xs[|xs| - 1]];
      FirstSeenOfDistinct(xs[..|xs| - 1]);
    }
  }

  lemma {:induction false} LastSeenMembers(xs: seq<string>)
    ensures forall x :: x in LastSeen(xs) <==> x in xs
    ensures Distinct(LastSeen(xs))
  {
    if xs != [] {
      assert xs == [xs[0]] + xs[1..];
      LastSeenMembers(xs[1..]);
    }
  }

  lemma LastSeenCons(x: string, xs: seq<string>)
    ensures LastSeen([x] + xs) == if x in xs then LastSeen(xs) else [x] + LastSeen(xs)
  {
    assert ([x] + xs)[1..] == xs;
  }

  lemma FilterOutCons(x: string, xs: seq<string>, drop: set<string>)
    ensures FilterOut([x] + xs, drop) == if x in drop then FilterOut(xs, drop) else [x] + FilterOut(xs, drop)
  {
    hide FilterOut;
    FilterOutConcat([x], xs, drop);
    FilterOutOne(x, drop);
    assert [] + FilterOut(xs, drop) == FilterOut(xs, drop);
  }

  lemma FilterOutOne(x: string, drop: set<string>)
    ensures FilterOut([x], drop) == if x in drop then [] else [x]
  {
    assert [x][..0] == [];
  }

  lemma {:induction false} LastSeenConcat(a: seq<string>, b: seq<string>)
    ensures LastSeen(a + b) == FilterOut(LastSeen(a), NameSet(b)) + LastSeen(b)
  {
    hide LastSeen, FilterOut;
    if a == [] {
      assert a + b == b;
      NothingLastSeen(b);
    } else {
      var x, rest := a[0], a[1..];
      LastSeenConcat(rest, b);
      LastSeenCons(x, rest + b);
      LastSeenCons(x, rest);
      FilterOutCons(x, LastSeen(rest), NameSet(b));
      assert a == [x] + rest && a + b == [x] + (rest + b);
      assert x in rest + b <==> x in rest || x in NameSet(b);
      LastSeenDropped(x, rest, b);
    }
  }

  lemma NothingLastSeen(b: seq<string>)
    ensures LastSeen([]) == [] && FilterOut([], NameSet(b)) == [] && [] + LastSeen(b) == LastSeen(b)
  {
  }

  lemma LastSeenDropped(x: string, rest: seq<string>, b: seq<string>)
    ensures [x] + FilterOut(LastSeen(rest), NameSet(b)) + LastSeen(b) == [x] + (FilterOut(LastSeen(rest), NameSet(b)) + LastSeen(b))
  {
    hide LastSeen, FilterOut, NameSet;
  }

  /** Distinct names number as many as their set. */
  lemma {:induction false} DistinctCount(xs: seq<string>)
    requires Distinct(xs)
    ensures |NameSet(xs)| == |xs|
  {
    if xs != [] {
      var n := |xs| - 1;
      DistinctCount(xs[..n]);
      assert NameSet(xs) == NameSet(xs[..n]) + {xs[n]} && xs[n] !in NameSet(xs[..n]);
    }
  }

  /** A name last seen at some point stands before exactly the names seen after it. */
  lemma LastSeenAt(before: seq<string>, x: string, after: seq<string>)
    requires x !in NameSet(after)
    ensures var order := LastSeen(before + [x] + after);
      var i := |order| - 1 - |NameSet(after)|; 0 <= i && order[i] == x
  {
    hide LastSeen, FilterOut;
    LastSeenConcat(before + [x], after);
    LastSeenConcat(before, [x]);
    LastSeenCons(x, []);
    assert [x] + [] == [x];
    NothingLastSeen([]);
    FilterOutSnoc(FilterOut(LastSeen(before), NameSet([x])), x, NameSet(after));
    LastSeenMembers(after);
    DistinctCount(LastSeen(after));
    assert NameSet(LastSeen(after)) == NameSet(after);
  }

  /** Names are listed in the order in which they first occur. */
  lemma {:induction false} FirstSeenInOrder(xs: seq<string>, i: nat, j: nat) returns (a: nat)
    requires i < j < |FirstSeen(xs)|
    ensures a < |xs| && xs[a] == FirstSeen(xs)[i] && FirstSeen(xs)[j] !in xs[..a + 1]
  {
    var n := |xs| - 1;
    FirstSeenMembers(xs[..n]);
    if j < |FirstSeen(xs[..n])| {
      a := FirstSeenInOrder(xs[..n], i, j);
      assert xs[..n][..a + 1] == xs[..a + 1];
    } else {
      assert FirstSeen(xs[..n])[i] in xs[..n];
      a :| 0 <= a < n && xs[..n][a] == FirstSeen(xs[..n])[i];
      assert forall t :: 0 <= t <= a ==> xs[t] == xs[..n][t] && xs[t] in xs[..n];
    }
  }

  /* ---- merges ---- */

  lemma {:induction false} FilterBuild(order: seq<string>, bodies: map<string, string>, drop: set<string>)
    ensures FilterEntries(Build(order, bodies), drop) == Build(FilterOut(order, drop), bodies)
  {
    if order != [] {
      var n := |order| - 1;
      assert Build(order, bodies)[..n] == Build(order[..n], bodies);
      FilterBuild(order[..n], bodies, drop);
    }
  }

  lemma {:induction false} BodiesOfBuild(order: seq<string>, bodies: map<string, string>)
    requires Distinct(order)
    ensures forall x :: x in Bodies(Build(order, bodies)) <==> x in order
    ensures forall x :: x in order ==> Bodies(Build(order, bodies))[x] == Get(bodies, x)
  {
    if order != [] {
      var n := |order| - 1;
      assert order == order[..n] + [order[n]];
      assert Build(order, bodies)[..n] == Build(order[..n], bodies);
      BodiesOfBuild(order[..n], bodies);
    }
  }

  /** Earlier entries take the newer body in place; new names follow. */
  function MergeEntries(earlier: seq<Entry>, newer: seq<Entry>): seq<Entry> {
    if newer == [] then earlier
    else
      var update := Bodies(newer);
      seq(|earlier|, k requires 0 <= k < |earlier| =>
        if earlier[k].name in update then earlier[k].(body := update[earlier[k].name]) else earlier[k])
      + FilterEntries(newer, NameSet(Names(earlier)))
  }

  /** The earlier entries with the newer bodies. */
  method RefreshBodies(earlier: seq<Entry>, newBody: map<string, string>) returns (merged: seq<Entry>, seen: set<string>)
    ensures |merged| == |earlier| && seen == NameSet(Names(earlier))
    ensures forall k :: 0 <= k < |earlier| ==>
      merged[k] == if earlier[k].name in newBody then earlier[k].(body := newBody[earlier[k].name]) else earlier[k]
  {
    merged := [];
    seen := {};
    for i := 0 to |earlier|
      invariant |merged| == i && seen == NameSet(Names(earlier[..i]))
      invariant forall k :: 0 <= k < i ==>
        merged[k] == if earlier[k].name in newBody then earlier[k].(body := newBody[earlier[k].name]) else earlier[k]
    {
      var e := earlier[i];
      if e.name in newBody {
        e := e.(body := newBody[e.name]);
      }
      merged := merged + [e];
      seen := seen + {e.name};
      assert Names(earlier[..i + 1]) == Names(earlier[..i]) + [earlier[i].name];
    }
    assert earlier[..|earlier|] == earlier;
  }

  method MergeSkillEntries(earlier: seq<Entry>, newer: seq<Entry>) returns (merged: seq<Entry>)
    ensures merged == MergeEntries(earlier, newer)
  {
    if |newer| == 0 {
      return earlier;
    }
    var newBody: map<string, string> := map[];
    for i := 0 to |newer|
      invariant newBody == Bodies(newer[..i])
    {
      newBody := newBody[newer[i].name := newer[i].body];
      assert newer[..i + 1][..i] == newer[..i];
    }
    assert newer[..|newer|] == newer;
    var seen;
    merged, seen := RefreshBodies(earlier, newBody);
    ghost var kept := merged;
    for i := 0 to |newer|
      invariant merged == kept + FilterEntries(newer[..i], seen)
    {
      if newer[i].name !in seen {
        merged := merged + [newer[i]];
      }
      assert newer[..i + 1][..i] == newer[..i];
    }
  }

  /** A refreshed name moves to the newest position with its fresh body. */
  function MergeEdits(earlier: seq<Entry>, newer: seq<Entry>): seq<Entry> {
    if newer == [] then earlier
    else FilterEntries(earlier, NameSet(Names(newer))) + Build(FirstSeen(Names(newer)), Bodies(newer))
  }

  lemma {:induction false} BodiesKeys(es: seq<Entry>)
    ensures Bodies(es).Keys == NameSet(Names(es))
  {
    if es != [] {
      var n := |es| - 1;
      BodiesKeys(es[..n]);
      assert Names(es) == Names(es[..n]) + [es[n].name];
    }
  }

  lemma {:induction false} BodiesConcat(a: seq<Entry>, b: seq<Entry>)
    ensures Bodies(a + b) == Bodies(a) + Bodies(b)
  {
    if b == [] {
      assert a + b == a;
    } else {
      assert (a + b)[..|a + b| - 1] == a + b[..|b| - 1];
      BodiesConcat(a, b[..|b| - 1]);
    }
  }

  method CollectFresh(newer: seq<Entry>) returns (freshOrder: seq<string>, freshBody: map<string, string>)
    ensures freshOrder == FirstSeen(Names(newer)) && freshBody == Bodies(newer)
  {
    hide FirstSeen;
    freshBody := map[];
    freshOrder := [];
    FirstSeenMembers(Names([]));
    for i := 0 to |newer|
      invariant freshBody == Bodies(newer[..i]) && freshOrder == FirstSeen(Names(newer[..i]))
    {
      BodiesKeys(newer[..i]);
      assert newer[..i + 1][..i] == newer[..i];
      assert Names(newer[..i + 1]) == Names(newer[..i]) + [newer[i].name];
      FirstSeenSnoc(Names(newer[..i]), newer[i].name);
      if newer[i].name !in freshBody {
        freshOrder := freshOrder + [newer[i].name];
      }
      freshBody := freshBody[newer[i].name := newer[i].body];
    }
    assert newer[..|newer|] == newer;
  }

  method MergeRecentEdits(earlier: seq<Entry>, newer: seq<Entry>) returns (merged: seq<Entry>)
    ensures merged == MergeEdits(earlier, newer)
  {
    hide FirstSeen, Bodies;
    if |newer| == 0 {
      return earlier;
    }
    var freshOrder, freshBody := CollectFresh(newer);
    BodiesKeys(newer);
    merged := [];
    for i := 0 to |earlier|
      invariant merged == FilterEntries(earlier[..i], NameSet(Names(newer)))
    {
      if earlier[i].name !in freshBody {
        merged := merged + [earlier[i]];
      }
      assert earlier[..i + 1][..i] == earlier[..i];
    }
    assert earlier[..|earlier|] == earlier;
    ghost var kept := merged;
    for i := 0 to |freshOrder|
      invariant merged == kept + Build(freshOrder, freshBody)[..i]
    {
      merged := merged + [Entry(freshOrder[i], Get(freshBody, freshOrder[i]))];
    }
  }

  const MAX_RECENT_EDITS := 20

  /** The most recent entries, at most twenty. */
  function CapRecentEdits(es: seq<Entry>): seq<Entry> {
    if |es| > MAX_RECENT_EDITS then es[|es| - MAX_RECENT_EDITS..] else es
  }

  lemma BuildConcat(p: seq<string>, q: seq<string>, bodies: map<string, string>)
    ensures Build(p + q, bodies) == Build(p, bodies) + Build(q, bodies)
  {
  }

  lemma BuildSame(order: seq<string>, b: map<string, string>, b': map<string, string>)
    requires forall x :: x in order ==> Get(b, x) == Get(b', x)
    ensures Build(order, b) == Build(order, b')
  {
    assert forall k :: 0 <= k < |order| ==> order[k] in order;
  }

  /** Merging in first-seen order is building from the joined orders and bodies. */
  lemma MergeEntriesOfBuilds(o1: seq<string>, b1: map<string, string>, o2: seq<string>, b2: map<string, string>)
    requires Distinct(o1) && Distinct(o2)
    requires forall x :: x in b2 <==> x in o2
    ensures MergeEntries(Build(o1, b1), Build(o2, b2)) == Build(o1 + FilterOut(o2, NameSet(o1)), b1 + b2)
  {
    hide FilterOut, FilterEntries, Bodies, Build;
    var tail := FilterOut(o2, NameSet(o1));
    BuildConcat(o1, tail, b1 + b2);
    FilterOutMembers(o2, NameSet(o1));
    BuildSame(tail, b2, b1 + b2);
    if o2 == [] {
      BuildSame(o1, b1, b1 + b2);
      assert tail == [] && o1 + tail == o1;
    } else {
      BodiesOfBuild(o2, b2);
      FilterBuild(o2, b2, NameSet(o1));
      assert Names(Build(o1, b1)) == o1;
      MergedHead(o1, b1, o2, b2);
    }
  }

  lemma MergedHead(o1: seq<string>, b1: map<string, string>, o2: seq<string>, b2: map<string, string>)
    requires Distinct(o2) && o2 != []
    requires forall x :: x in b2 <==> x in o2
    ensures MergeEntries(Build(o1, b1), Build(o2, b2))
         == Build(o1, b1 + b2) + FilterEntries(Build(o2, b2), NameSet(Names(Build(o1, b1))))
  {
    hide FilterOut, FilterEntries, Bodies;
    BodiesOfBuild(o2, b2);
  }

  /** Merging in last-seen order likewise, when every newer name has its own body. */
  lemma MergeEditsOfBuilds(o1: seq<string>, b1: map<string, string>, o2: seq<string>, b2: map<string, string>)
    requires Distinct(o1) && Distinct(o2)
    requires forall x :: x in b2 <==> x in o2
    ensures MergeEdits(Build(o1, b1), Build(o2, b2)) == Build(FilterOut(o1, NameSet(o2)) + o2, b1 + b2)
  {
    hide FilterOut, FilterEntries, Bodies, Build, FirstSeen, MergeEdits;
    var kept := FilterOut(o1, NameSet(o2));
    FilterBuild(o1, b1, NameSet(o2));
    FilterOutMembers(o1, NameSet(o2));
    BuildConcat(kept, o2, b1 + b2);
    BuildSame(kept, b1, b1 + b2);
    BuildSame(o2, b2, b1 + b2);
    assert Names(Build(o2, b2)) == o2;
    MergeDistinct(Build(o1, b1), Build(o2, b2));
  }

  /* ---- the cap loses nothing a later merge would keep ---- */

  lemma {:induction false} FilterEntriesConcat(a: seq<Entry>, b: seq<Entry>, drop: set<string>)
    ensures FilterEntries(a + b, drop) == FilterEntries(a, drop) + FilterEntries(b, drop)
  {
    if b == [] {
      assert a + b == a;
    } else {
      assert (a + b)[..|a + b| - 1] == a + b[..|b| - 1];
      FilterEntriesConcat(a, b[..|b| - 1], drop);
    }
  }

  /** Filtering distinct names removes at most one entry per dropped name. */
  lemma {:induction false} FilterRemovesFew(es: seq<Entry>, drop: set<string>)
    requires Distinct(Names(es))
    ensures |es| - |drop| <= |FilterEntries(es, drop)| <= |es|
  {
    if es != [] {
      var n := |es| - 1;
      var last := es[n].name;
      if last in drop {
        FilterRemovesFew(es[..n], drop - {last});
        FilterEntriesSame(es[..n], drop, drop - {last});
      } else {
        FilterRemovesFew(es[..n], drop);
      }
    }
  }

  lemma {:induction false} FilterEntriesSame(es: seq<Entry>, d: set<string>, d': set<string>)
    requires forall k :: 0 <= k < |es| ==> (es[k].name in d <==> es[k].name in d')
    ensures FilterEntries(es, d) == FilterEntries(es, d')
  {
    if es != [] {
      FilterEntriesSame(es[..|es| - 1], d, d');
    }
  }

  lemma {:induction false} NameSetSize(xs: seq<string>)
    ensures |NameSet(xs)| <= |xs|
  {
    if xs != [] {
      var n := |xs| - 1;
      NameSetSize(xs[..n]);
      assert NameSet(xs) == NameSet(xs[..n]) + {xs[n]};
    }
  }

  /** Newer entries with distinct names merge as they are. */
  lemma MergeDistinct(earlier: seq<Entry>, newer: seq<Entry>)
    requires Distinct(Names(newer))
    ensures MergeEdits(earlier, newer) == FilterEntries(earlier, NameSet(Names(newer))) + newer
  {
    FirstSeenOfDistinct(Names(newer));
    BodiesOfDistinct(newer);
    if newer == [] {
      assert NameSet(Names(newer)) == {};
      FilterEntriesNothing(earlier);
    } else {
      assert Build(Names(newer), Bodies(newer)) == newer;
    }
  }

  lemma {:induction false} FilterEntriesNothing(es: seq<Entry>)
    ensures FilterEntries(es, {}) == es
  {
    if es != [] {
      FilterEntriesNothing(es[..|es| - 1]);
    }
  }

  lemma {:induction false} BodiesOfDistinct(es: seq<Entry>)
    requires Distinct(Names(es))
    ensures forall k :: 0 <= k < |es| ==> es[k].name in Bodies(es) && Bodies(es)[es[k].name] == es[k].body
  {
    if es != [] {
      var n := |es| - 1;
      assert Names(es)[..n] == Names(es[..n]);
      BodiesOfDistinct(es[..n]);
      forall k | 0 <= k < n ensures es[k].name != es[n].name {
        assert Names(es)[k] != Names(es)[n];
      }
    }
  }

  lemma {:induction false} FilterMembers(es: seq<Entry>, drop: set<string>, e: Entry)
    ensures e in FilterEntries(es, drop) <==> e in es && e.name !in drop
  {
    if es != [] {
      assert es == es[..|es| - 1] + [es[|es| - 1]];
      FilterMembers(es[..|es| - 1], drop, e);
    }
  }

  lemma {:induction false} FilterTwice(es: seq<Entry>, d: set<string>, d': set<string>)
    ensures FilterEntries(FilterEntries(es, d), d') == FilterEntries(es, d + d')
  {
    if es != [] {
      var n := |es| - 1;
      FilterTwice(es[..n], d, d');
      var kept := FilterEntries(es[..n], d);
      assert kept + [] == kept && (kept + [es[n]])[..|kept|] == kept;
    }
  }

  /** A merge refreshes the earlier names in place and holds every newer entry; the earlier
      entries with other names stay. */
  lemma MergedListing(earlier: seq<Entry>, newer: seq<Entry>, e: Entry)
    requires Distinct(Names(newer))
    ensures e in MergeEntries(earlier, newer) <==> if e.name in Names(newer) then e in newer else e in earlier
  {
    hide Bodies, FilterEntries;
    BodiesKeys(newer);
    BodiesOfDistinct(newer);
    FilterMembers(newer, NameSet(Names(earlier)), e);
    if newer != [] {
      if e.name in Names(newer) {
        var t :| 0 <= t < |newer| && Names(newer)[t] == e.name;
        var merged := MergeEntries(earlier, newer);
        if e.name in Names(earlier) {
          var k :| 0 <= k < |earlier| && Names(earlier)[k] == e.name;
          assert merged[k] == newer[t];
        }
      } else if e in earlier {
        var k :| 0 <= k < |earlier| && earlier[k] == e;
        assert MergeEntries(earlier, newer)[k] == e;
      }
    }
  }

  /** The positions after `i` of the entries with other names. */
  function KeptAfter(es: seq<Entry>, drop: set<string>, i: int): set<int> {
    set j | 0 <= j < |es| && i < j && es[j].name !in drop
  }

  function LastOf(es: seq<Entry>, room: nat): seq<Entry> {
    if |es| > room then es[|es| - room..] else es
  }

  lemma KeptAfterInit(es: seq<Entry>, drop: set<string>, i: nat)
    requires i < |es| - 1
    ensures var n := |es| - 1;
      |KeptAfter(es, drop, i)| == |KeptAfter(es[..n], drop, i)| + if es[n].name in drop then 0 else 1
  {
    var n := |es| - 1;
    assert KeptAfter(es, drop, i) == KeptAfter(es[..n], drop, i) + if es[n].name in drop then {} else {n};
  }

  lemma LastOfSnoc(es: seq<Entry>, x: Entry, room: nat)
    requires room > 0
    ensures LastOf(es + [x], room) == LastOf(es, room - 1) + [x]
  {
  }

  /** A kept entry with few after it is among the last kept ones. */
  lemma {:induction false} FewAfterIsLast(es: seq<Entry>, drop: set<string>, room: nat, i: nat)
    requires i < |es| && es[i].name !in drop && |KeptAfter(es, drop, i)| < room
    ensures es[i] in LastOf(FilterEntries(es, drop), room)
  {
    hide KeptAfter, LastOf;
    var n := |es| - 1;
    var kept := FilterEntries(es[..n], drop);
    if es[n].name !in drop {
      LastOfSnoc(kept, es[n], room);
    } else {
      assert kept + [] == kept;
    }
    if i < n {
      KeptAfterInit(es, drop, i);
      FewAfterIsLast(es[..n], drop, if es[n].name in drop then room else room - 1, i);
    }
  }

  /** Every one of the last kept entries has few after it. */
  lemma {:induction false} LastHasFewAfter(es: seq<Entry>, drop: set<string>, room: nat, e: Entry) returns (i: nat)
    requires e in LastOf(FilterEntries(es, drop), room)
    ensures i < |es| && es[i] == e && e.name !in drop && |KeptAfter(es, drop, i)| < room
  {
    hide KeptAfter, LastOf;
    NothingKeptIsLast(room, e);
    var n := |es| - 1;
    var kept := FilterEntries(es[..n], drop);
    if es[n].name in drop {
      assert kept + [] == kept;
      i := LastHasFewAfter(es[..n], drop, room, e);
      KeptAfterInit(es, drop, i);
    } else {
      NoRoom(kept + [es[n]], e);
      LastOfSnoc(kept, es[n], room);
      if e in LastOf(kept, room - 1) {
        i := LastHasFewAfter(es[..n], drop, room - 1, e);
        KeptAfterInit(es, drop, i);
      } else {
        i := n;
        NoneAfterLast(es, drop);
      }
    }
  }

  lemma NothingKeptIsLast(room: nat, e: Entry)
    ensures e !in LastOf([], room)
  {
  }

  lemma NoRoom(es: seq<Entry>, e: Entry)
    ensures e !in LastOf(es, 0)
  {
  }

  lemma NoneAfterLast(es: seq<Entry>, drop: set<string>)
    ensures |KeptAfter(es, drop, |es| - 1)| == 0
  {
    assert KeptAfter(es, drop, |es| - 1) == {};
  }

  /** An entry is among the last kept ones exactly when it is kept and few are after it. */
  lemma LastKept(es: seq<Entry>, drop: set<string>, room: nat, e: Entry)
    ensures e in LastOf(FilterEntries(es, drop), room)
      <==> exists i :: 0 <= i < |es| && es[i] == e && e.name !in drop && |KeptAfter(es, drop, i)| < room
  {
    hide KeptAfter, LastOf, FilterEntries;
    if e in LastOf(FilterEntries(es, drop), room) {
      var i := LastHasFewAfter(es, drop, room, e);
    }
    forall i | 0 <= i < |es| && es[i] == e && e.name !in drop && |KeptAfter(es, drop, i)| < room
      ensures e in LastOf(FilterEntries(es, drop), room)
    {
      FewAfterIsLast(es, drop, room, i);
    }
  }

  /** The capped-off head of `earlier` cannot reach the last twenty after a merge. */
  lemma CappedHeadIsOut(earlier: seq<Entry>, newer: seq<Entry>, drop: set<string>)
    requires Distinct(Names(earlier)) && |drop| <= |newer| && |earlier| > MAX_RECENT_EDITS
    ensures CapRecentEdits(FilterEntries(CapRecentEdits(earlier), drop) + newer)
         == CapRecentEdits(FilterEntries(earlier, drop) + newer)
  {
    hide FilterEntries;
    var cut := |earlier| - MAX_RECENT_EDITS;
    var head, o := earlier[..cut], earlier[cut..];
    assert Names(o) == Names(earlier)[cut..];
    assert earlier == head + o;
    FilterEntriesConcat(head, o, drop);
    FilterRemovesFew(o, drop);
    SuffixOfLonger(FilterEntries(head, drop), FilterEntries(o, drop) + newer);
    assert FilterEntries(earlier, drop) + newer == FilterEntries(head, drop) + (FilterEntries(o, drop) + newer);
  }

  /** Capping both sides before the merge gives the same twenty as merging everything. */
  lemma CapSurvivesMerge(earlier: seq<Entry>, newer: seq<Entry>)
    requires Distinct(Names(earlier)) && Distinct(Names(newer))
    ensures CapRecentEdits(MergeEdits(CapRecentEdits(earlier), CapRecentEdits(newer)))
         == CapRecentEdits(MergeEdits(earlier, newer))
  {
    hide FilterEntries, MergeEdits;
    var o, n := CapRecentEdits(earlier), CapRecentEdits(newer);
    assert Names(n) == Names(newer)[|newer| - |n|..];
    MergeDistinct(earlier, newer);
    MergeDistinct(o, n);
    if |newer| <= MAX_RECENT_EDITS {
      NameSetSize(Names(newer));
      if |earlier| > MAX_RECENT_EDITS {
        CappedHeadIsOut(earlier, newer, NameSet(Names(newer)));
      }
    } else {
      SuffixOfLonger(FilterEntries(earlier, NameSet(Names(newer))), newer);
      SuffixOfLonger(FilterEntries(o, NameSet(Names(n))), n);
    }
  }

  lemma SuffixOfLonger(a: seq<Entry>, b: seq<Entry>)
    requires |b| >= MAX_RECENT_EDITS
    ensures CapRecentEdits(a + b) == CapRecentEdits(b)
  {
  }
}
