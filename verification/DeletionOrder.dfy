/**
 Removing an example bundle (example_bundle._owned_deletion_order, _remove):
 in which order the owned models are emptied, when there is no such order, and
 why no foreign key ever dangles on the way.
 */
module DeletionOrder {
  import opened Wrappers
  import opened Text

  /** A model by its label, and for each model the models its foreign keys point at. */
  type Model = string
  type Schema = map<Model, set<Model>>

  predicate PointsAt(schema: Schema, child: Model, target: Model) {
    child in schema && target in schema[child] && child != target
  }

  ghost function Leaves(schema: Schema, remaining: set<Model>): set<Model> {
    set m | m in remaining && !exists c :: c in remaining && PointsAt(schema, c, m)
  }

  function Elems(s: seq<Model>): set<Model> { set m | m in s }

  /** Round by round: first the models nothing left points at, in label order, then the rest. */
  ghost predicate ByRounds(schema: Schema, remaining: set<Model>, order: seq<Model>)
    decreases |remaining|
  {
    if remaining == {} then order == []
    else
      var leaves := Leaves(schema, remaining);
      leaves != {} && |leaves| <= |order|
      && Ascending(order[..|leaves|]) && Elems(order[..|leaves|]) == leaves
      && (assert leaves <= remaining; assert |remaining - leaves| == |remaining| - |leaves|; ByRounds(schema, remaining - leaves, order[|leaves|..]))
  }

  // ----- What such an order is good for -----

  ghost predicate ChildrenFirst(schema: Schema, order: seq<Model>) {
    forall i, j :: 0 <= i < |order| && 0 <= j < |order| && PointsAt(schema, order[i], order[j]) ==> i < j
  }

  ghost predicate Distinct(order: seq<Model>) {
    forall i, j :: 0 <= i < j < |order| ==> order[i] != order[j]
  }

  lemma AscendingIsDistinct(order: seq<Model>)
    requires Ascending(order)
    ensures Distinct(order)
  {
    forall i, j | 0 <= i < j < |order| ensures order[i] != order[j] { BeforeTotal(order[i], order[j]); }
  }

  lemma JoinElems(first: seq<Model>, later: seq<Model>)
    ensures Elems(first + later) == Elems(first) + Elems(later)
    ensures Elems(first) !! Elems(later) && Distinct(first) && Distinct(later) ==> Distinct(first + later)
  {
    var both := first + later;
    forall m ensures m in Elems(both) <==> m in Elems(first) + Elems(later) {
      assert m in both <==> m in first || m in later;
    }
    if Elems(first) !! Elems(later) && Distinct(first) && Distinct(later) {
      var n := |first|;
      forall i, j | 0 <= i < j < |both| ensures both[i] != both[j] {
        if i < n <= j {
          assert both[i] == first[i] && both[j] == later[j - n];
          assert first[i] in Elems(first) && later[j - n] in Elems(later);
        } else if i < n {
          assert both[i] == first[i] && both[j] == first[j];
        } else {
          assert both[i] == later[i - n] && both[j] == later[j - n];
        }
      }
    }
  }

  lemma JoinChildrenFirst(schema: Schema, first: seq<Model>, later: seq<Model>)
    requires ChildrenFirst(schema, later)
    requires forall c, m :: c in Elems(first) + Elems(later) && m in Elems(first) ==> !PointsAt(schema, c, m)
    ensures ChildrenFirst(schema, first + later)
  {
    hide PointsAt;
    var both, n := first + later, |first|;
    forall i | 0 <= i < |both| ensures both[i] in Elems(first) + Elems(later) {
      if i < n { assert both[i] == first[i]; } else { assert both[i] == later[i - n]; }
    }
    forall j | 0 <= j < n ensures both[j] in Elems(first) { assert both[j] == first[j]; }
    forall i, j | 0 <= i < |both| && 0 <= j < |both| && PointsAt(schema, both[i], both[j]) ensures i < j {
      assert j >= n;
      if i >= n { assert both[i] == later[i - n] && both[j] == later[j - n]; }
    }
  }

  lemma FirstRound(schema: Schema, remaining: set<Model>, order: seq<Model>) returns (first: seq<Model>, later: seq<Model>)
    requires ByRounds(schema, remaining, order) && remaining != {}
    ensures order == first + later && Ascending(first) && Elems(first) == Leaves(schema, remaining)
    ensures Leaves(schema, remaining) <= remaining && |remaining - Leaves(schema, remaining)| < |remaining|
    ensures ByRounds(schema, remaining - Leaves(schema, remaining), later)
  {
    hide PointsAt, Ascending;
    var leaves := Leaves(schema, remaining);
    first, later := order[..|leaves|], order[|leaves|..];
    assert |remaining - leaves| == |remaining| - |leaves|;
  }

  lemma NoRounds(schema: Schema, order: seq<Model>)
    requires ByRounds(schema, {}, order)
    ensures Elems(order) == {} && Distinct(order) && ChildrenFirst(schema, order)
  {
  }

  lemma NothingPointsAtLeaves(schema: Schema, remaining: set<Model>)
    ensures forall c, m :: c in remaining && m in Leaves(schema, remaining) ==> !PointsAt(schema, c, m)
  {
  }

  /** The order lists every owned model once, each before the models it points at. */
  lemma {:induction false} RoundsAreSound(schema: Schema, remaining: set<Model>, order: seq<Model>)
    requires ByRounds(schema, remaining, order)
    ensures Elems(order) == remaining && Distinct(order) && ChildrenFirst(schema, order)
    decreases |remaining|
  {
    hide *;
    if remaining == {} {
      NoRounds(schema, order);
    } else {
      var first, later := FirstRound(schema, remaining, order);
      RoundsAreSound(schema, remaining - Leaves(schema, remaining), later);
      AscendingIsDistinct(first);
      NothingPointsAtLeaves(schema, remaining);
      JoinElems(first, later);
      assert Leaves(schema, remaining) + (remaining - Leaves(schema, remaining)) == remaining;
      JoinChildrenFirst(schema, first, later);
    }
  }

  // ----- When there is none -----

  /** Two or more distinct owned models, each pointing at the next and the last at the first. */
  ghost predicate IsCycle(schema: Schema, models: set<Model>, cycle: seq<Model>) {
    && |cycle| >= 2 && Distinct(cycle) && Elems(cycle) <= models
    && (forall i :: 0 <= i < |cycle| - 1 ==> PointsAt(schema, cycle[i], cycle[i + 1]))
    && PointsAt(schema, cycle[|cycle| - 1], cycle[0])
  }

  ghost predicate Cyclic(schema: Schema, models: set<Model>) {
    exists cycle :: IsCycle(schema, models, cycle)
  }

  ghost predicate IsPath(schema: Schema, models: set<Model>, path: seq<Model>) {
    && path != [] && Distinct(path) && Elems(path) <= models
    && forall i :: 0 <= i < |path| - 1 ==> PointsAt(schema, path[i], path[i + 1])
  }

  lemma CloseCycle(schema: Schema, models: set<Model>, path: seq<Model>, k: nat)
    requires IsPath(schema, models, path) && k < |path| && PointsAt(schema, path[k], path[0])
    ensures IsCycle(schema, models, path[..k + 1])
  {
    var cycle := path[..k + 1];
    forall m | m in Elems(cycle) ensures m in models { assert m in path && m in Elems(path); }
  }

  lemma LongerPath(schema: Schema, models: set<Model>, path: seq<Model>, c: Model)
    requires IsPath(schema, models, path) && c in models && c !in path && PointsAt(schema, c, path[0])
    ensures IsPath(schema, models, [c] + path) && |models - Elems([c] + path)| < |models - Elems(path)|
  {
    var longer := [c] + path;
    hide PointsAt;
    forall m ensures m in Elems(longer) <==> m == c || m in Elems(path) {
      assert m in longer <==> m == c || m in path;
    }
    assert c in models - Elems(path) && c !in models - Elems(longer);
    Shrinks(models - Elems(longer), models - Elems(path));
  }

  /** Where every model is pointed at by another one, following the pointers backwards closes a cycle. */
  lemma {:induction false} Chase(schema: Schema, stuck: set<Model>, path: seq<Model>) returns (cycle: seq<Model>)
    requires IsPath(schema, stuck, path) && Leaves(schema, stuck) == {}
    ensures IsCycle(schema, stuck, cycle)
    decreases |stuck - Elems(path)|
  {
    assert path[0] in Elems(path);
    assert path[0] !in Leaves(schema, stuck);
    hide IsPath, IsCycle, PointsAt, Elems;
    var c :| c in stuck && PointsAt(schema, c, path[0]);
    if c in path {
      var k :| 0 <= k < |path| && path[k] == c;
      CloseCycle(schema, stuck, path, k);
      cycle := path[..k + 1];
    } else {
      LongerPath(schema, stuck, path, c);
      cycle := Chase(schema, stuck, [c] + path);
    }
  }

  lemma Shrinks(a: set<Model>, b: set<Model>)
    requires a < b
    ensures |a| < |b|
  {
    var x :| x in b && x !in a;
    assert a <= b - {x};
    SubsetIsSmaller(a, b - {x});
  }

  lemma {:induction false} SubsetIsSmaller(a: set<Model>, b: set<Model>)
    requires a <= b
    ensures |a| <= |b|
    decreases a
  {
    if a != {} {
      var x :| x in a;
      SubsetIsSmaller(a - {x}, b - {x});
    }
  }

  lemma StuckIsCyclic(schema: Schema, owned: set<Model>, remaining: set<Model>)
    requires remaining != {} && remaining <= owned && Leaves(schema, remaining) == {}
    ensures Cyclic(schema, owned)
  {
    hide PointsAt, Leaves;
    var m :| m in remaining;
    var cycle := Chase(schema, remaining, [m]);
    assert IsCycle(schema, owned, cycle);
  }

  lemma {:induction false} IndicesGrow(schema: Schema, order: seq<Model>, cycle: seq<Model>, at: seq<int>, k: nat)
    requires ChildrenFirst(schema, order) && |at| == |cycle| && k < |cycle|
    requires forall i :: 0 <= i < |cycle| ==> 0 <= at[i] < |order| && order[at[i]] == cycle[i]
    requires forall i :: 0 <= i < |cycle| - 1 ==> PointsAt(schema, cycle[i], cycle[i + 1])
    ensures at[0] <= at[k]
  {
    if k > 0 {
      IndicesGrow(schema, order, cycle, at, k - 1);
      assert PointsAt(schema, order[at[k - 1]], order[at[k]]);
    }
  }

  /** A cycle leaves no order that puts children first. */
  lemma CyclicHasNoOrder(schema: Schema, owned: set<Model>, order: seq<Model>)
    requires Elems(order) == owned && ChildrenFirst(schema, order)
    ensures !Cyclic(schema, owned)
  {
    hide IsCycle, ChildrenFirst;
    forall cycle ensures !IsCycle(schema, owned, cycle) {
      if IsCycle(schema, owned, cycle) {
        CycleBreaksOrder(schema, owned, order, cycle);
      }
    }
  }

  lemma CycleBreaksOrder(schema: Schema, owned: set<Model>, order: seq<Model>, cycle: seq<Model>)
    requires Elems(order) == owned && IsCycle(schema, owned, cycle)
    ensures !ChildrenFirst(schema, order)
  {
    forall i | 0 <= i < |cycle| ensures exists k :: 0 <= k < |order| && order[k] == cycle[i] {
      assert cycle[i] in Elems(cycle);
      assert cycle[i] in order;
    }
    var at := seq(|cycle|, i requires 0 <= i < |cycle| => IndexOf(order, cycle[i]));
    assert PointsAt(schema, order[at[|cycle| - 1]], order[at[0]]);
    if ChildrenFirst(schema, order) {
      IndicesGrow(schema, order, cycle, at, |cycle| - 1);
    }
  }

  ghost function IndexOf(order: seq<Model>, m: Model): (k: int)
    requires exists k :: 0 <= k < |order| && order[k] == m
    ensures 0 <= k < |order| && order[k] == m
  {
    var k :| 0 <= k < |order| && order[k] == m;
    k
  }

  // ----- The loop -----

  method Referenced(schema: Schema, remaining: set<Model>) returns (referenced: set<Model>)
    ensures remaining - referenced == Leaves(schema, remaining)
  {
    referenced := {};
    var children := remaining;
    while children != {}
      invariant children <= remaining
      invariant forall m :: m in referenced <==> m in remaining && exists c :: c in remaining - children && PointsAt(schema, c, m)
      decreases |children|
    {
      var child :| child in children;
      var targets := if child in schema then schema[child] else {};
      ghost var had, before := referenced, remaining - children;
      referenced := referenced + set t | t in targets && t in remaining && t != child;
      children := children - {child};
      assert remaining - children == before + {child};
      forall m ensures m in referenced <==> m in remaining && exists c :: c in remaining - children && PointsAt(schema, c, m) {
        if m in referenced && m !in had { assert PointsAt(schema, child, m); }
        if m in had { var c :| c in before && PointsAt(schema, c, m); assert c in remaining - children; }
      }
    }
    assert remaining - {} == remaining;
  }

  /** However the remaining models come to be ordered, putting that order after `ordered` orders all of them. */
  ghost predicate SoFar(schema: Schema, owned: set<Model>, remaining: set<Model>, ordered: seq<Model>) {
    forall tail :: ByRounds(schema, remaining, tail) ==> ByRounds(schema, owned, ordered + tail)
  }

  lemma NothingSoFar(schema: Schema, owned: set<Model>)
    ensures SoFar(schema, owned, owned, [])
  {
    hide ByRounds;
    forall tail | ByRounds(schema, owned, tail) ensures ByRounds(schema, owned, [] + tail) { assert [] + tail == tail; }
  }

  lemma AllSoFar(schema: Schema, owned: set<Model>, ordered: seq<Model>)
    requires SoFar(schema, owned, {}, ordered)
    ensures ByRounds(schema, owned, ordered)
  {
    assert ByRounds(schema, {}, []);
    hide ByRounds;
    assert ordered + [] == ordered;
  }

  lemma RoundTaken(schema: Schema, owned: set<Model>, remaining: set<Model>, ordered: seq<Model>, leaves: seq<Model>)
    requires SoFar(schema, owned, remaining, ordered)
    requires leaves != [] && Ascending(leaves) && Elems(leaves) == Leaves(schema, remaining)
    ensures SoFar(schema, owned, remaining - Elems(leaves), ordered + leaves)
  {
    hide ByRounds, Leaves, Ascending, Elems;
    forall tail | ByRounds(schema, remaining - Elems(leaves), tail) ensures ByRounds(schema, owned, (ordered + leaves) + tail) {
      OneRound(schema, remaining, leaves, tail);
      assert ordered + (leaves + tail) == (ordered + leaves) + tail;
    }
  }

  /** Refuses exactly when the owned models point at each other in a cycle; self references do not count. */
  method OwnedDeletionOrder(schema: Schema, owned: set<Model>) returns (r: Result<seq<Model>, string>)
    ensures r.Ok? <==> !Cyclic(schema, owned)
    ensures r.Ok? ==> ByRounds(schema, owned, r.value)
    ensures r.Ok? ==> Elems(r.value) == owned && Distinct(r.value) && ChildrenFirst(schema, r.value)
  {
    var remaining := owned;
    var ordered: seq<Model> := [];
    NothingSoFar(schema, owned);
    hide SoFar, ByRounds, Leaves, Cyclic, Distinct, ChildrenFirst, Ascending;
    while remaining != {}
      invariant remaining <= owned
      invariant SoFar(schema, owned, remaining, ordered)
      decreases |remaining|
    {
      var referenced := Referenced(schema, remaining);
      var leaves := Sorted(remaining - referenced);
      if leaves == [] {
        assert remaining - referenced == {} by { assert forall m :: m in remaining - referenced ==> m in leaves; }
        StuckIsCyclic(schema, owned, remaining);
        return Err("Cyclic example ownership graph; removal refused.");
      }
      assert Elems(leaves) == remaining - referenced by { forall m ensures m in Elems(leaves) <==> m in remaining - referenced {} }
      RoundTaken(schema, owned, remaining, ordered, leaves);
      assert leaves[0] in Elems(leaves);
      Shrinks(remaining - Elems(leaves), remaining);
      ordered := ordered + leaves;
      remaining := remaining - Elems(leaves);
    }
    AllSoFar(schema, owned, ordered);
    RoundsAreSound(schema, owned, ordered);
    CyclicHasNoOrder(schema, owned, ordered);
    return Ok(ordered);
  }

  lemma OneRound(schema: Schema, remaining: set<Model>, leaves: seq<Model>, tail: seq<Model>)
    requires leaves != [] && Ascending(leaves) && Elems(leaves) == Leaves(schema, remaining)
    requires ByRounds(schema, remaining - Elems(leaves), tail)
    ensures ByRounds(schema, remaining, leaves + tail)
  {
    AscendingSize(leaves);
    assert leaves[0] in Elems(leaves);
    assert (leaves + tail)[..|leaves|] == leaves && (leaves + tail)[|leaves|..] == tail;
  }

  lemma {:induction false} AscendingSize(s: seq<Model>)
    requires Ascending(s)
    ensures |Elems(s)| == |s|
  {
    if s != [] {
      forall x ensures x in Elems(s) - {s[0]} <==> x in Elems(s[1..]) { TailHolds(s, x); }
      assert s[0] in Elems(s);
      AscendingSize(s[1..]);
      assert Elems(s) - {s[0]} == Elems(s[1..]);
    }
  }
}
