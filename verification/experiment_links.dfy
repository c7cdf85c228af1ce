/**
 * The parent/child chain of experiment levels (src/mopipe/core/data/experiment.py):
 * levels live in a store keyed by identity, linked by their raw `_parent`
 * and `_child` pointers. Linking is made symmetric for the two levels
 * involved, after which the whole chain is relevelled from its top.
 *
 * Python walks the chain by recursion, so a cycle ends in a
 * RecursionError. The walks here carry a step budget; with the store's
 * size as budget they fail exactly on the walks that never end
 * (`WalkFits`, `WalkFuel`).
 */
module ExperimentLinks {
  import opened Errors
  import opened ExperimentData

  /** Every level of an experiment, by identity. */
  type Store = map<nat, Level>

  /** Every pointer names a level of the store. */
  predicate Closed(s: Store) {
    forall k | k in s :: (s[k].parent.Some? ==> s[k].parent.value in s) && (s[k].child.Some? ==> s[k].child.value in s)
  }

  /** Two stores that differ at most in the depths of their levels. */
  predicate OnlyDepths(s: Store, r: Store) {
    r.Keys == s.Keys && forall k | k in s :: r[k] == s[k].(depth := r[k].depth)
  }

  datatype Dir = Up | Down

  /** The pointer a walk follows. */
  function Next(l: Level, d: Dir): Option<nat> {
    if d == Up then l.parent else l.child
  }

  /** A walk along the pointers: each level is followed by the one it points to, and the last points nowhere. */
  predicate IsWalk(s: Store, w: seq<nat>, d: Dir) {
    |w| >= 1 && (forall i | 0 <= i < |w| :: w[i] in s)
    && (forall i | 0 <= i < |w| - 1 :: Next(s[w[i]], d) == Some(w[i + 1]))
    && Next(s[w[|w| - 1]], d).None?
  }

  /**
   * `climb` (Up) and `descend` (Down) (experiment.py:349-359): the level
   * itself, then every level reached through the pointer, in order. A
   * walk that needs more steps than `fuel` is a RecursionError.
   */
  function Walk(s: Store, x: nat, d: Dir, fuel: nat): (w: Result<seq<nat>>)
    requires Closed(s) && x in s
    ensures w.Ok? ==> IsWalk(s, w.value, d) && w.value[0] == x && |w.value| <= fuel + 1
    ensures w.Err? ==> w.error == RecursionError
    decreases fuel
  {
    match Next(s[x], d)
    case None => Ok([x])
    case Some(y) =>
      if fuel == 0 then Err(RecursionError)
      else
        var rest :- Walk(s, y, d, fuel - 1);
        Ok([x] + rest)
  }

  /** Equal levels along a walk are followed by equal levels. */
  lemma {:induction false} WalkShift(s: Store, w: seq<nat>, d: Dir, i: nat, j: nat, k: nat)
    requires IsWalk(s, w, d) && i < j && j + k < |w|
    ensures w[i] == w[j] ==> w[i + k] == w[j + k]
  {
    if k > 0 {
      WalkShift(s, w, d, i, j, k - 1);
      assert Next(s[w[i + k - 1]], d) == Some(w[i + k]);
      assert Next(s[w[j + k - 1]], d) == Some(w[j + k]);
    }
  }

  /** A walk that ends never visits a level twice. */
  lemma WalkDistinct(s: Store, w: seq<nat>, d: Dir)
    requires IsWalk(s, w, d)
    ensures forall i, j | 0 <= i < j < |w| :: w[i] != w[j]
  {
    var last := |w| - 1;
    forall i, j | 0 <= i < j < |w| ensures w[i] != w[j] {
      WalkShift(s, w, d, i, j, last - j);
      assert Next(s[w[i + last - j]], d) == Some(w[i + last - j + 1]);
    }
  }

  /** A sequence without repeats drawn from a set is no longer than the set is large. */
  lemma {:induction false} DistinctFits(w: seq<nat>, keys: set<nat>)
    requires forall i | 0 <= i < |w| :: w[i] in keys
    requires forall i, j | 0 <= i < j < |w| :: w[i] != w[j]
    ensures |w| <= |keys|
  {
    if w != [] {
      var rest := w[1..];
      forall i | 0 <= i < |rest| ensures rest[i] in keys - {w[0]} {
        assert rest[i] == w[i + 1];
      }
      DistinctFits(rest, keys - {w[0]});
    }
  }

  /** A walk that ends has at most one level per store entry. */
  lemma WalkFits(s: Store, w: seq<nat>, d: Dir)
    requires IsWalk(s, w, d)
    ensures |w| <= |s|
  {
    WalkDistinct(s, w, d);
    DistinctFits(w, s.Keys);
  }

  /** A walk that ends comes out the same with any budget that covers its steps. */
  lemma {:induction false} WalkFuel(s: Store, x: nat, d: Dir, fuel: nat, fuel': nat)
    requires Closed(s) && x in s
    requires Walk(s, x, d, fuel).Ok? && |Walk(s, x, d, fuel).value| <= fuel' + 1
    ensures Walk(s, x, d, fuel') == Walk(s, x, d, fuel)
    decreases fuel
  {
    if Next(s[x], d).Some? {
      var y := Next(s[x], d).value;
      WalkFuel(s, y, d, fuel - 1, fuel' - 1);
    }
  }

  /** The walk a level starts in Python, with the store's size as budget. */
  function Chain(s: Store, x: nat, d: Dir): (w: Result<seq<nat>>)
    requires Closed(s) && x in s
    ensures w.Ok? ==> IsWalk(s, w.value, d) && w.value[0] == x
    ensures w.Err? ==> w.error == RecursionError
  {
    Walk(s, x, d, |s|)
  }

  /** The store's size is budget enough: any walk that ends with some budget ends the same with it. */
  lemma ChainEnough(s: Store, x: nat, d: Dir, fuel: nat)
    requires Closed(s) && x in s
    requires Walk(s, x, d, fuel).Ok?
    ensures Chain(s, x, d) == Walk(s, x, d, fuel)
  {
    WalkFits(s, Walk(s, x, d, fuel).value, d);
    WalkFuel(s, x, d, fuel, |s|);
  }

  /** `top` (experiment.py:361-370): the last level of the climb. */
  function Top(s: Store, x: nat): (r: Result<nat>)
    requires Closed(s) && x in s
    ensures r.Ok? ==> r.value in s && s[r.value].parent.None?
    ensures r.Ok? <==> Chain(s, x, Up).Ok?
    ensures r.Ok? ==> r.value == Chain(s, x, Up).value[|Chain(s, x, Up).value| - 1]
  {
    var w :- Chain(s, x, Up);
    Ok(w[|w| - 1])
  }

  /** `bottom` (experiment.py:372-381): the last level of the descent. */
  function Bottom(s: Store, x: nat): (r: Result<nat>)
    requires Closed(s) && x in s
    ensures r.Ok? ==> r.value in s && s[r.value].child.None?
    ensures r.Ok? <==> Chain(s, x, Down).Ok?
    ensures r.Ok? ==> r.value == Chain(s, x, Down).value[|Chain(s, x, Down).value| - 1]
  {
    var w :- Chain(s, x, Down);
    Ok(w[|w| - 1])
  }

  /** A level that is its own parent makes every walk up from it run out of budget. */
  lemma {:induction false} SelfParentWalk(s: Store, x: nat, fuel: nat)
    requires Closed(s) && x in s && s[x].parent == Some(x)
    ensures Walk(s, x, Up, fuel) == Err(RecursionError)
    decreases fuel
  {
    if fuel > 0 {
      SelfParentWalk(s, x, fuel - 1);
    }
  }

  /** A level that is its own parent sends `top` into endless recursion. */
  lemma SelfParentRaises(s: Store, x: nat)
    requires Closed(s) && x in s && s[x].parent == Some(x)
    ensures Top(s, x) == Err(RecursionError)
  {
    SelfParentWalk(s, x, |s|);
  }

  /* ---------------------------------------------------------------- */
  /* Relevelling                                                       */
  /* ---------------------------------------------------------------- */

  /** `_relevel` along a chain (experiment.py:383-387): the i-th level gets depth + i. */
  function SetDepths(s: Store, chain: seq<nat>, depth: int): (r: Store)
    requires forall i | 0 <= i < |chain| :: chain[i] in s
    ensures OnlyDepths(s, r)
    ensures forall k | k in s && k !in chain :: r[k] == s[k]
    ensures (forall i, j | 0 <= i < j < |chain| :: chain[i] != chain[j]) ==>
              forall i | 0 <= i < |chain| :: r[chain[i]].depth == depth + i
    decreases |chain|
  {
    if chain == [] then s
    else
      var x := chain[0];
      var r := SetDepths(s[x := s[x].(depth := depth)], chain[1..], depth + 1);
      SetDepthsStep(s, chain, depth, r);
      r
  }

  /** One step of `SetDepths`: the first level of the chain gets `depth`, the rest as the recursion says. */
  lemma SetDepthsStep(s: Store, chain: seq<nat>, depth: int, r: Store)
    requires chain != [] && forall i | 0 <= i < |chain| :: chain[i] in s
    requires var s' := s[chain[0] := s[chain[0]].(depth := depth)];
             OnlyDepths(s', r) && (forall k | k in s' && k !in chain[1..] :: r[k] == s'[k])
             && ((forall i, j | 0 <= i < j < |chain[1..]| :: chain[1..][i] != chain[1..][j]) ==>
                   forall i | 0 <= i < |chain[1..]| :: r[chain[1..][i]].depth == depth + 1 + i)
    ensures OnlyDepths(s, r)
    ensures forall k | k in s && k !in chain :: r[k] == s[k]
    ensures (forall i, j | 0 <= i < j < |chain| :: chain[i] != chain[j]) ==>
              forall i | 0 <= i < |chain| :: r[chain[i]].depth == depth + i
  {
    StepKeepsOthers(s, chain, depth, r);
    if forall i, j | 0 <= i < j < |chain| :: chain[i] != chain[j] {
      StepDepths(s, chain, depth, r);
    }
  }

  /** Levels off the chain are untouched by a step. */
  lemma StepKeepsOthers(s: Store, chain: seq<nat>, depth: int, r: Store)
    requires chain != [] && chain[0] in s
    requires var s' := s[chain[0] := s[chain[0]].(depth := depth)];
             OnlyDepths(s', r) && forall k | k in s' && k !in chain[1..] :: r[k] == s'[k]
    ensures OnlyDepths(s, r)
    ensures forall k | k in s && k !in chain :: r[k] == s[k]
  {
    DepthsOverUpdate(s, chain[0], depth, r);
    forall k | k in s && k !in chain ensures r[k] == s[k] {
      assert k != chain[0];
    }
  }

  /** Changing one depth first does not matter to a store that differs only in depths. */
  lemma DepthsOverUpdate(s: Store, x: nat, depth: int, r: Store)
    requires x in s && OnlyDepths(s[x := s[x].(depth := depth)], r)
    ensures OnlyDepths(s, r)
  {
    forall k | k in s ensures r[k] == s[k].(depth := r[k].depth) {
      if k == x {
        assert r[x] == s[x].(depth := depth).(depth := r[x].depth);
      }
    }
  }

  /** On a chain without repeats each level of it gets its own depth. */
  lemma StepDepths(s: Store, chain: seq<nat>, depth: int, r: Store)
    requires chain != [] && (forall i | 0 <= i < |chain| :: chain[i] in s) && r.Keys == s.Keys
    requires forall i, j | 0 <= i < j < |chain| :: chain[i] != chain[j]
    requires var s' := s[chain[0] := s[chain[0]].(depth := depth)];
             (forall k | k in s' && k !in chain[1..] :: r[k] == s'[k])
             && ((forall i, j | 0 <= i < j < |chain[1..]| :: chain[1..][i] != chain[1..][j]) ==>
                   forall i | 0 <= i < |chain[1..]| :: r[chain[1..][i]].depth == depth + 1 + i)
    ensures forall i | 0 <= i < |chain| :: r[chain[i]].depth == depth + i
  {
    var tail := chain[1..];
    assert forall i | 0 <= i < |tail| :: tail[i] == chain[i + 1];
    assert chain[0] !in tail;
    forall i | 0 <= i < |chain| ensures r[chain[i]].depth == depth + i {
      if i > 0 {
        assert chain[i] == tail[i - 1];
      }
    }
  }

  /** Stores that differ only in depths have the same walks. */
  lemma {:induction false} WalkDepthBlind(s: Store, r: Store, x: nat, d: Dir, fuel: nat)
    requires Closed(s) && OnlyDepths(s, r) && x in s
    ensures Closed(r) && Walk(r, x, d, fuel) == Walk(s, x, d, fuel)
    decreases fuel
  {
    assert Next(r[x], d) == Next(s[x], d);
    if Next(s[x], d).Some? && fuel > 0 {
      WalkDepthBlind(s, r, Next(s[x], d).value, d, fuel - 1);
    }
  }

  /** The depth the top level gets: 0 for an Experiment, 1 for anything else. */
  function TopDepth(l: Level): int {
    if l.kind == ExperimentKind then 0 else 1
  }

  /**
   * The chain through x is levelled: from its top down, the top has its
   * class's depth and every child is one deeper than its parent.
   */
  predicate Leveled(s: Store, x: nat)
    requires Closed(s) && x in s
  {
    Top(s, x).Ok? && Chain(s, Top(s, x).value, Down).Ok?
    && var down := Chain(s, Top(s, x).value, Down).value;
    s[down[0]].depth == TopDepth(s[down[0]])
    && forall i | 0 < i < |down| :: s[down[i]].depth == s[down[i - 1]].depth + 1
  }

  /** `relevel_stack` (experiment.py:389-399): relevel from the top of the chain through x. */
  function RelevelStack(s: Store, x: nat): (r: Result<Store>)
    requires Closed(s) && x in s
    ensures r.Ok? <==> Top(s, x).Ok? && Chain(s, Top(s, x).value, Down).Ok?
    ensures r.Ok? ==> OnlyDepths(s, r.value) && Closed(r.value) && Leveled(r.value, x)
    ensures r.Err? ==> r.error == RecursionError
  {
    var top :- Top(s, x);
    var down :- Chain(s, top, Down);
    WalkDistinct(s, down, Down);
    var r := SetDepths(s, down, TopDepth(s[top]));
    RelevelLeveled(s, r, x, top, down);
    Ok(r)
  }

  /**
   * `relevel_children` (experiment.py:401-403): the chain below x is
   * renumbered from x's own depth: the i-th level of the descent from x
   * (x itself first) gets x's depth plus i, and nothing off it changes.
   */
  function RelevelChildren(s: Store, x: nat): (r: Result<Store>)
    requires Closed(s) && x in s
    ensures r.Ok? <==> Chain(s, x, Down).Ok?
    ensures r.Ok? ==> OnlyDepths(s, r.value) && Closed(r.value)
    ensures r.Ok? ==> var down := Chain(s, x, Down).value;
              (forall i | 0 <= i < |down| :: r.value[down[i]].depth == s[x].depth + i)
              && forall k | k in s && k !in down :: r.value[k] == s[k]
    ensures r.Err? ==> r.error == RecursionError
  {
    var down :- Chain(s, x, Down);
    WalkDistinct(s, down, Down);
    var r := SetDepths(s, down, s[x].depth);
    WalkDepthBlind(s, r, x, Down, 0);
    Ok(r)
  }

  /** Renumbering a chain whose depths already count up from `depth` changes nothing. */
  lemma {:induction false} SetDepthsFixed(s: Store, chain: seq<nat>, depth: int)
    requires forall i | 0 <= i < |chain| :: chain[i] in s && s[chain[i]].depth == depth + i
    ensures SetDepths(s, chain, depth) == s
    decreases |chain|
  {
    if chain != [] {
      assert s[chain[0] := s[chain[0]].(depth := depth)] == s;
      var tail := chain[1..];
      assert forall i | 0 <= i < |tail| :: tail[i] == chain[i + 1];
      SetDepthsFixed(s, tail, depth + 1);
    }
  }

  /** Relevelling the children twice is relevelling them once. */
  lemma RelevelChildrenIdempotent(s: Store, x: nat)
    requires Closed(s) && x in s && RelevelChildren(s, x).Ok?
    ensures var r := RelevelChildren(s, x).value;
            x in r && RelevelChildren(r, x) == Ok(r)
  {
    var r := RelevelChildren(s, x).value;
    var down := Chain(s, x, Down).value;
    SameKeysSameSize(s, r);
    WalkDepthBlind(s, r, x, Down, |s|);
    assert Chain(r, x, Down) == Ok(down);
    assert r[x].depth == s[x].depth;
    SetDepthsFixed(r, down, r[x].depth);
  }

  /** Relevelling changes depths only: every level keeps its links and its kind. */
  lemma RelevelKeepsLinks(s: Store, x: nat, k: nat)
    requires Closed(s) && x in s && k in s
    ensures RelevelStack(s, x).Ok? ==>
              RelevelStack(s, x).value[k].parent == s[k].parent && RelevelStack(s, x).value[k].child == s[k].child
              && RelevelStack(s, x).value[k].kind == s[k].kind
  {
    if RelevelStack(s, x).Ok? {
      var r := RelevelStack(s, x).value;
      assert r[k] == s[k].(depth := r[k].depth);
    }
  }

  /** Stores with the same keys are the same size. */
  lemma SameKeysSameSize(s: Store, r: Store)
    requires r.Keys == s.Keys
    ensures |r| == |s|
  {
    assert |r.Keys| == |r| && |s.Keys| == |s|;
  }

  /** New depths leave the walks through x and from its top as they were. */
  lemma RelevelWalks(s: Store, r: Store, x: nat, top: nat, down: seq<nat>)
    requires Closed(s) && x in s && OnlyDepths(s, r)
    requires Top(s, x) == Ok(top) && Chain(s, top, Down) == Ok(down)
    ensures Closed(r) && x in r && top in r
    ensures Top(r, x) == Ok(top) && Chain(r, top, Down) == Ok(down)
  {
    SameKeysSameSize(s, r);
    WalkDepthBlind(s, r, x, Up, |s|);
    WalkDepthBlind(s, r, top, Down, |s|);
  }

  /** Levelled, spelled out on the two walks. */
  lemma LeveledFrom(r: Store, x: nat, top: nat, down: seq<nat>)
    requires Closed(r) && x in r && Top(r, x) == Ok(top) && Chain(r, top, Down) == Ok(down)
    requires r[down[0]].depth == TopDepth(r[down[0]])
    requires forall i | 0 < i < |down| :: r[down[i]].depth == r[down[i - 1]].depth + 1
    ensures Leveled(r, x)
  {
  }

  /** The facts `RelevelStack` rests on: the walks survive the new depths, which step by one. */
  lemma RelevelLeveled(s: Store, r: Store, x: nat, top: nat, down: seq<nat>)
    requires Closed(s) && x in s && Top(s, x) == Ok(top) && Chain(s, top, Down) == Ok(down)
    requires forall i, j | 0 <= i < j < |down| :: down[i] != down[j]
    requires r == SetDepths(s, down, TopDepth(s[top]))
    ensures Closed(r) && Leveled(r, x)
  {
    RelevelWalks(s, r, x, top, down);
    assert forall i | 0 <= i < |down| :: r[down[i]].depth == TopDepth(s[top]) + i;
    assert r[top].kind == s[top].kind;
    LeveledFrom(r, x, top, down);
  }

  /* ---------------------------------------------------------------- */
  /* Linking                                                           */
  /* ---------------------------------------------------------------- */

  /** Replacing one level by one whose pointers stay inside the store keeps the store closed. */
  lemma UpdateClosed(s: Store, k: nat, l: Level)
    requires Closed(s) && k in s
    requires l.parent.Some? ==> l.parent.value in s
    requires l.child.Some? ==> l.child.value in s
    ensures Closed(s[k := l])
  {
  }

  /** The level o, when there is one, forgets its child; nothing else changes. */
  function ClearChild(s: Store, o: Option<nat>): (r: Store)
    requires Closed(s) && (o.Some? ==> o.value in s)
    ensures Closed(r) && r.Keys == s.Keys
    ensures forall k | k in s && o != Some(k) :: r[k] == s[k]
    ensures o.Some? ==> r[o.value] == s[o.value].(child := None)
  {
    if o.None? then s
    else
      UpdateClosed(s, o.value, s[o.value].(child := None));
      s[o.value := s[o.value].(child := None)]
  }

  /** The level o, when there is one, forgets its parent; nothing else changes. */
  function ClearParent(s: Store, o: Option<nat>): (r: Store)
    requires Closed(s) && (o.Some? ==> o.value in s)
    ensures Closed(r) && r.Keys == s.Keys
    ensures forall k | k in s && o != Some(k) :: r[k] == s[k]
    ensures o.Some? ==> r[o.value] == s[o.value].(parent := None)
  {
    if o.None? then s
    else
      UpdateClosed(s, o.value, s[o.value].(parent := None));
      s[o.value := s[o.value].(parent := None)]
  }

  /** The pointer changes of `parent = p` on a, before relevelling (experiment.py:85-92). */
  function LinkParent(s: Store, a: nat, p: nat): (r: Store)
    requires Closed(s) && a in s && p in s
    ensures Closed(r) && r.Keys == s.Keys
    ensures r[a].parent == Some(p) && r[p].child == Some(a)
    ensures forall k | k in s && k != a && k != p && s[a].parent != Some(k) :: r[k] == s[k]
    ensures s[a].parent.Some? && s[a].parent.value != p && s[a].parent.value != a ==>
              r[s[a].parent.value] == s[s[a].parent.value].(child := None)
    ensures r[a].kind == s[a].kind
    ensures p != a ==> r[p] == s[p].(child := Some(a))
    ensures p != a && s[a].parent != Some(a) ==> r[a] == s[a].(parent := Some(p))
  {
    var s1 := ClearChild(s, s[a].parent);
    UpdateClosed(s1, p, s1[p].(child := Some(a)));
    var s2 := s1[p := s1[p].(child := Some(a))];
    UpdateClosed(s2, a, s2[a].(parent := Some(p)));
    s2[a := s2[a].(parent := Some(p))]
  }

  /** The pointer changes of `child = c` on a, before relevelling (experiment.py:103-110). */
  function LinkChild(s: Store, a: nat, c: nat): (r: Store)
    requires Closed(s) && a in s && c in s
    ensures Closed(r) && r.Keys == s.Keys
    ensures r[a].child == Some(c) && r[c].parent == Some(a)
    ensures forall k | k in s && k != a && k != c && s[a].child != Some(k) :: r[k] == s[k]
    ensures s[a].child.Some? && s[a].child.value != c && s[a].child.value != a ==>
              r[s[a].child.value] == s[s[a].child.value].(parent := None)
    ensures r[a].kind == s[a].kind
    ensures c != a ==> r[c] == s[c].(parent := Some(a))
    ensures c != a && s[a].child != Some(a) ==> r[a] == s[a].(child := Some(c))
  {
    var s1 := ClearParent(s, s[a].child);
    UpdateClosed(s1, c, s1[c].(parent := Some(a)));
    var s2 := s1[c := s1[c].(parent := Some(a))];
    UpdateClosed(s2, a, s2[a].(child := Some(c)));
    s2[a := s2[a].(child := Some(c))]
  }

  /**
   * `parent = p` on level a (experiment.py:82-93, 419-423). An
   * Experiment refuses with a ValueError. Otherwise a's former parent
   * loses its child, p takes a as its child, a takes p as its parent,
   * and the chain is relevelled. p's former child keeps pointing at p.
   */
  function SetParent(s: Store, a: nat, p: nat): (r: Result<Store>)
    requires Closed(s) && a in s && p in s
    ensures s[a].kind == ExperimentKind ==> r == Err(ValueError)
    ensures s[a].kind != ExperimentKind ==> r == RelevelStack(LinkParent(s, a, p), a)
    ensures r.Ok? ==> r.value.Keys == s.Keys && Closed(r.value) && Leveled(r.value, a)
    ensures r.Ok? ==> r.value[a].parent == Some(p) && r.value[p].child == Some(a)
    ensures r.Err? ==> r.error == ValueError || r.error == RecursionError
  {
    if s[a].kind == ExperimentKind then Err(ValueError)
    else
      var linked := LinkParent(s, a, p);
      RelevelKeepsLinks(linked, a, a);
      RelevelKeepsLinks(linked, a, p);
      RelevelStack(linked, a)
  }

  /**
   * `child = c` on level a (experiment.py:100-111, 438-442). A Trial
   * refuses with a ValueError. Otherwise a's former child loses its
   * parent, c takes a as its parent, a takes c as its child, and the
   * chain is relevelled. c's former parent keeps pointing at c.
   */
  function SetChild(s: Store, a: nat, c: nat): (r: Result<Store>)
    requires Closed(s) && a in s && c in s
    ensures s[a].kind == TrialKind ==> r == Err(ValueError)
    ensures s[a].kind != TrialKind ==> r == RelevelStack(LinkChild(s, a, c), a)
    ensures r.Ok? ==> r.value.Keys == s.Keys && Closed(r.value) && Leveled(r.value, a)
    ensures r.Ok? ==> r.value[a].child == Some(c) && r.value[c].parent == Some(a)
    ensures r.Err? ==> r.error == ValueError || r.error == RecursionError
  {
    if s[a].kind == TrialKind then Err(ValueError)
    else
      var linked := LinkChild(s, a, c);
      RelevelKeepsLinks(linked, a, a);
      RelevelKeepsLinks(linked, a, c);
      RelevelStack(linked, a)
  }

  /** Setting a parent touches no pointer but those of a, p and a's former parent. */
  lemma SetParentKeepsOthers(s: Store, a: nat, p: nat, k: nat)
    requires Closed(s) && a in s && p in s && k in s
    requires SetParent(s, a, p).Ok?
    requires k != a && k != p && s[a].parent != Some(k)
    ensures SetParent(s, a, p).value[k].parent == s[k].parent
    ensures SetParent(s, a, p).value[k].child == s[k].child
  {
    var linked := LinkParent(s, a, p);
    var r := SetParent(s, a, p).value;
    assert r[k] == linked[k].(depth := r[k].depth);
  }

  /** a's former parent, when it is neither a nor p, is left without a child. */
  lemma SetParentDropsFormer(s: Store, a: nat, p: nat)
    requires Closed(s) && a in s && p in s
    requires SetParent(s, a, p).Ok?
    requires s[a].parent.Some? && s[a].parent.value != p && s[a].parent.value != a
    ensures SetParent(s, a, p).value[s[a].parent.value].child.None?
  {
    var op := s[a].parent.value;
    var r := SetParent(s, a, p).value;
    assert r[op] == LinkParent(s, a, p)[op].(depth := r[op].depth);
  }

  /** a's former child, when it is neither a nor c, is left without a parent. */
  lemma SetChildDropsFormer(s: Store, a: nat, c: nat)
    requires Closed(s) && a in s && c in s
    requires SetChild(s, a, c).Ok?
    requires s[a].child.Some? && s[a].child.value != c && s[a].child.value != a
    ensures SetChild(s, a, c).value[s[a].child.value].parent.None?
  {
    var oc := s[a].child.value;
    var r := SetChild(s, a, c).value;
    assert r[oc] == LinkChild(s, a, c)[oc].(depth := r[oc].depth);
  }

  /**
   * The stale pointer: if p already had another child q, q still names p
   * as its parent although p's child is now a.
   */
  lemma SetParentLeavesStale(s: Store, a: nat, p: nat, q: nat)
    requires Closed(s) && a in s && p in s && q in s
    requires SetParent(s, a, p).Ok?
    requires s[p].child == Some(q) && s[q].parent == Some(p) && q != a && q != p
    ensures SetParent(s, a, p).value[q].parent == Some(p)
    ensures SetParent(s, a, p).value[p].child == Some(a)
  {
    var r := SetParent(s, a, p).value;
    assert s[a].parent != Some(q) ==> r[q] == LinkParent(s, a, p)[q].(depth := r[q].depth);
  }
}
