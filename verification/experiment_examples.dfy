/**
 * Concrete experiment structures: the experiment, group and trial chain
 * of tests/core/data/test_experiment.py, and runs of an empty pipeline
 * in the manner of tests/integration/test_experiment_pipeline.py.
 */
module ExperimentExamples {
  import opened Errors
  import opened Empirical
  import opened ExperimentData
  import opened ExperimentLinks

  /** A level with neither parent nor child. */
  predicate Unlinked(l: Level) {
    l.parent.None? && l.child.None?
  }

  /** Four levels under keys 0 to 3, as the test creates them. */
  function Loose(e: Level, g: Level, t: Level, x: Level): (s: Store)
    requires Unlinked(e) && Unlinked(g) && Unlinked(t) && Unlinked(x)
    ensures Closed(s) && s.Keys == {0, 1, 2, 3}
  {
    map[0 := e, 1 := g, 2 := t, 3 := x]
  }

  /** After `ex.child = group`: the group hangs under the experiment. */
  function Linked1(e: Level, g: Level, t: Level, x: Level): (s: Store)
    requires Unlinked(e) && Unlinked(g) && Unlinked(t) && Unlinked(x)
    ensures Closed(s) && s.Keys == {0, 1, 2, 3}
  {
    map[0 := e.(child := Some(1), depth := TopDepth(e)), 1 := g.(parent := Some(0), depth := TopDepth(e) + 1), 2 := t, 3 := x]
  }

  lemma Linked1At(e: Level, g: Level, t: Level, x: Level)
    requires Unlinked(e) && Unlinked(g) && Unlinked(t) && Unlinked(x)
    ensures Linked1(e, g, t, x)[0] == e.(child := Some(1), depth := TopDepth(e))
    ensures Linked1(e, g, t, x)[1] == g.(parent := Some(0), depth := TopDepth(e) + 1)
    ensures Linked1(e, g, t, x)[2] == t && Linked1(e, g, t, x)[3] == x
  {
  }

  /** After `group.child = trial`: the trial hangs under the group. */
  function Linked2(e: Level, g: Level, t: Level, x: Level): (s: Store)
    requires Unlinked(e) && Unlinked(t) && Unlinked(x)
    ensures Closed(s) && s.Keys == {0, 1, 2, 3}
  {
    map[0 := e.(child := Some(1), depth := TopDepth(e)), 1 := g.(parent := Some(0), child := Some(2), depth := TopDepth(e) + 1),
        2 := t.(parent := Some(1), depth := TopDepth(e) + 2), 3 := x]
  }

  /** A walk that stops at once. */
  lemma WalkEnd(s: Store, x: nat, d: Dir, fuel: nat)
    requires Closed(s) && x in s && Next(s[x], d).None?
    ensures Walk(s, x, d, fuel) == Ok([x])
  {
  }

  /** A walk that takes one step and continues. */
  lemma WalkStep(s: Store, x: nat, y: nat, d: Dir, fuel: nat, rest: seq<nat>)
    requires Closed(s) && x in s && Next(s[x], d) == Some(y)
    requires Walk(s, y, d, fuel) == Ok(rest)
    ensures Walk(s, x, d, fuel + 1) == Ok([x] + rest)
  {
  }

  /** The walks through the top of a chain of two. */
  lemma TwoWalks(s: Store, a: nat, c: nat)
    requires Closed(s) && a in s && c in s
    requires s[a].parent.None? && s[a].child == Some(c) && s[c].child.None?
    ensures Top(s, a) == Ok(a) && Chain(s, a, Down) == Ok([a, c])
  {
    WalkEnd(s, a, Up, 0);
    ChainEnough(s, a, Up, 0);
    WalkEnd(s, c, Down, 0);
    WalkStep(s, a, c, Down, 0, [c]);
    assert [a] + [c] == [a, c];
    ChainEnough(s, a, Down, 1);
  }

  /** New depths along two distinct levels. */
  lemma DepthsTwo(s: Store, a: nat, c: nat, d: int)
    requires a in s && c in s && a != c
    ensures SetDepths(s, [a, c], d) == s[a := s[a].(depth := d)][c := s[c].(depth := d + 1)]
  {
    var s1 := s[a := s[a].(depth := d)];
    assert [a, c][1..] == [c];
    assert SetDepths(s, [a, c], d) == SetDepths(s1, [c], d + 1);
    assert [c][1..] == [];
  }

  /** Relevelling a chain of two from its top. */
  lemma RelevelTwo(s: Store, a: nat, c: nat)
    requires Closed(s) && a in s && c in s && a != c
    requires s[a].parent.None? && s[a].child == Some(c) && s[c].parent == Some(a) && s[c].child.None?
    ensures RelevelStack(s, a) == Ok(s[a := s[a].(depth := TopDepth(s[a]))][c := s[c].(depth := TopDepth(s[a]) + 1)])
  {
    TwoWalks(s, a, c);
    DepthsTwo(s, a, c, TopDepth(s[a]));
  }

  /** A child link that relevels to r succeeds with r. */
  lemma SetChildVia(s: Store, a: nat, c: nat, r: Store)
    requires Closed(s) && a in s && c in s && s[a].kind != TrialKind
    requires RelevelStack(LinkChild(s, a, c), a) == Ok(r)
    ensures SetChild(s, a, c) == Ok(r)
  {
  }

  /** Two stores over keys 0 to 3 that agree at each key are equal. */
  lemma SameFour(s: Store, r: Store)
    requires s.Keys == {0, 1, 2, 3} && r.Keys == {0, 1, 2, 3}
    requires s[0] == r[0] && s[1] == r[1] && s[2] == r[2] && s[3] == r[3]
    ensures s == r
  {
    assert forall k | k in s :: s[k] == r[k];
  }

  /** The walks of a chain of three, from its middle. */
  lemma ThreeWalks(s: Store, a: nat, b: nat, c: nat)
    requires Closed(s) && a in s && b in s && c in s
    requires s[a].parent.None? && s[a].child == Some(b) && s[b].parent == Some(a) && s[b].child == Some(c) && s[c].child.None?
    ensures Top(s, b) == Ok(a) && Chain(s, a, Down) == Ok([a, b, c])
  {
    WalkEnd(s, a, Up, 0);
    WalkStep(s, b, a, Up, 0, [a]);
    ChainEnough(s, b, Up, 1);
    WalkEnd(s, c, Down, 0);
    WalkStep(s, b, c, Down, 0, [c]);
    assert [b] + [c] == [b, c];
    WalkStep(s, a, b, Down, 1, [b, c]);
    assert [a] + [b, c] == [a, b, c];
    ChainEnough(s, a, Down, 2);
  }

  /** New depths along three distinct levels. */
  lemma DepthsThree(s: Store, a: nat, b: nat, c: nat, d: int)
    requires a in s && b in s && c in s && a != b && b != c && a != c
    ensures SetDepths(s, [a, b, c], d) == s[a := s[a].(depth := d)][b := s[b].(depth := d + 1)][c := s[c].(depth := d + 2)]
  {
    var s1 := s[a := s[a].(depth := d)];
    DepthsTwo(s1, b, c, d + 1);
    assert s1[b] == s[b] && s1[c] == s[c];
    assert [a, b, c][1..] == [b, c];
    assert SetDepths(s, [a, b, c], d) == SetDepths(s1, [b, c], d + 1);
  }

  /** `ex.child = group` on the loose levels. */
  lemma LinkGroup(e: Level, g: Level, t: Level, x: Level)
    requires Unlinked(e) && Unlinked(g) && Unlinked(t) && Unlinked(x) && e.kind != TrialKind
    ensures SetChild(Loose(e, g, t, x), 0, 1) == Ok(Linked1(e, g, t, x))
  {
    GroupPointers(e, g, t, x);
    RelevelGroup(LinkChild(Loose(e, g, t, x), 0, 1), e, g, t, x);
    SetChildVia(Loose(e, g, t, x), 0, 1, Linked1(e, g, t, x));
  }

  /** The pointer changes of `ex.child = group` on the loose levels. */
  lemma GroupPointers(e: Level, g: Level, t: Level, x: Level)
    requires Unlinked(e) && Unlinked(g) && Unlinked(t) && Unlinked(x)
    ensures var linked := LinkChild(Loose(e, g, t, x), 0, 1);
            linked.Keys == {0, 1, 2, 3} && linked[0] == e.(child := Some(1)) && linked[1] == g.(parent := Some(0))
            && linked[2] == t && linked[3] == x
  {
  }

  /** Relevelling the experiment and the group hanging under it. */
  lemma RelevelGroup(linked: Store, e: Level, g: Level, t: Level, x: Level)
    requires Unlinked(e) && Unlinked(g) && Unlinked(t) && Unlinked(x)
    requires Closed(linked) && linked.Keys == {0, 1, 2, 3}
    requires linked[0] == e.(child := Some(1)) && linked[1] == g.(parent := Some(0)) && linked[2] == t && linked[3] == x
    ensures RelevelStack(linked, 0) == Ok(Linked1(e, g, t, x))
  {
    RelevelTwo(linked, 0, 1);
    var r := RelevelStack(linked, 0).value;
    assert r[0] == e.(child := Some(1), depth := TopDepth(e)) && r[1] == g.(parent := Some(0), depth := TopDepth(e) + 1);
    assert r[2] == t && r[3] == x;
    Linked1At(e, g, t, x);
    SameFour(r, Linked1(e, g, t, x));
  }

  /** `group.child = trial` after that: the whole chain is relevelled from the experiment down. */
  lemma LinkTrial(e: Level, g: Level, t: Level, x: Level)
    requires Unlinked(e) && Unlinked(g) && Unlinked(t) && Unlinked(x) && g.kind != TrialKind
    ensures SetChild(Linked1(e, g, t, x), 1, 2) == Ok(Linked2(e, g, t, x))
  {
    Linked1At(e, g, t, x);
    RelinkTrial(e, g, t, x);
    SetChildVia(Linked1(e, g, t, x), 1, 2, Linked2(e, g, t, x));
  }

  /** The pointer changes and relevelling of `group.child = trial`. */
  lemma RelinkTrial(e: Level, g: Level, t: Level, x: Level)
    requires Unlinked(e) && Unlinked(g) && Unlinked(t) && Unlinked(x)
    ensures RelevelStack(LinkChild(Linked1(e, g, t, x), 1, 2), 1) == Ok(Linked2(e, g, t, x))
  {
    var linked := LinkChild(Linked1(e, g, t, x), 1, 2);
    LinkTrialAt(e, g, t, x);
    RelevelChain(linked);
    TrialDepths(e, g, t, x);
  }

  /** The new depths of `group.child = trial` give the built chain. */
  lemma TrialDepths(e: Level, g: Level, t: Level, x: Level)
    requires Unlinked(e) && Unlinked(g) && Unlinked(t) && Unlinked(x)
    ensures var linked := LinkChild(Linked1(e, g, t, x), 1, 2);
            var d := TopDepth(linked[0]);
            linked[0 := linked[0].(depth := d)][1 := linked[1].(depth := d + 1)][2 := linked[2].(depth := d + 2)]
            == Linked2(e, g, t, x)
  {
    var linked := LinkChild(Linked1(e, g, t, x), 1, 2);
    LinkTrialAt(e, g, t, x);
    var d := TopDepth(linked[0]);
    var r := linked[0 := linked[0].(depth := d)][1 := linked[1].(depth := d + 1)][2 := linked[2].(depth := d + 2)];
    assert r.Keys == {0, 1, 2, 3};
    Linked2At(e, g, t, x);
    SameFour(r, Linked2(e, g, t, x));
  }

  /** The pointers after `group.child = trial`, before relevelling. */
  lemma LinkTrialAt(e: Level, g: Level, t: Level, x: Level)
    requires Unlinked(e) && Unlinked(g) && Unlinked(t) && Unlinked(x)
    ensures var linked := LinkChild(Linked1(e, g, t, x), 1, 2);
            linked.Keys == {0, 1, 2, 3}
            && linked[0] == e.(child := Some(1), depth := TopDepth(e))
            && linked[1] == g.(parent := Some(0), depth := TopDepth(e) + 1, child := Some(2))
            && linked[2] == t.(parent := Some(1)) && linked[3] == x
  {
    Linked1At(e, g, t, x);
  }

  /** Relevelling sets the depths down the chain from the top. */
  lemma RelevelVia(s: Store, x: nat, top: nat, down: seq<nat>)
    requires Closed(s) && x in s && Top(s, x) == Ok(top) && Chain(s, top, Down) == Ok(down)
    ensures forall i | 0 <= i < |down| :: down[i] in s
    ensures RelevelStack(s, x) == Ok(SetDepths(s, down, TopDepth(s[top])))
  {
  }

  /** Relevelling the chain 0, 1, 2 from its middle. */
  lemma RelevelChain(s: Store)
    requires Closed(s) && 0 in s && 1 in s && 2 in s
    requires s[0].parent.None? && s[0].child == Some(1) && s[1].parent == Some(0) && s[1].child == Some(2) && s[2].child.None?
    ensures var d := TopDepth(s[0]);
            RelevelStack(s, 1) == Ok(s[0 := s[0].(depth := d)][1 := s[1].(depth := d + 1)][2 := s[2].(depth := d + 2)])
  {
    ThreeWalks(s, 0, 1, 2);
    var d := TopDepth(s[0]);
    DepthsThree(s, 0, 1, 2, d);
    RelevelVia(s, 1, 0, [0, 1, 2]);
  }

  lemma Linked2At(e: Level, g: Level, t: Level, x: Level)
    requires Unlinked(e) && Unlinked(t) && Unlinked(x)
    ensures Linked2(e, g, t, x)[0] == e.(child := Some(1), depth := TopDepth(e))
    ensures Linked2(e, g, t, x)[1] == g.(parent := Some(0), child := Some(2), depth := TopDepth(e) + 1)
    ensures Linked2(e, g, t, x)[2] == t.(parent := Some(1), depth := TopDepth(e) + 2)
    ensures Linked2(e, g, t, x)[3] == x
  {
  }

  /** In the built chain every level climbs to the experiment. */
  lemma Tops(s: Store)
    requires Closed(s) && 0 in s && 1 in s && 2 in s
    requires s[0].parent.None? && s[0].child == Some(1) && s[1].parent == Some(0) && s[1].child == Some(2)
    requires s[2].parent == Some(1) && s[2].child.None?
    ensures Top(s, 0) == Ok(0) && Top(s, 1) == Ok(0) && Top(s, 2) == Ok(0)
  {
    WalkEnd(s, 0, Up, 0);
    ChainEnough(s, 0, Up, 0);
    WalkStep(s, 1, 0, Up, 0, [0]);
    ChainEnough(s, 1, Up, 1);
    assert [1] + [0] == [1, 0];
    WalkStep(s, 2, 1, Up, 1, [1, 0]);
    ChainEnough(s, 2, Up, 2);
  }

  /** In the built chain every level descends to the trial. */
  lemma Bottoms(s: Store)
    requires Closed(s) && 0 in s && 1 in s && 2 in s
    requires s[0].parent.None? && s[0].child == Some(1) && s[1].parent == Some(0) && s[1].child == Some(2)
    requires s[2].parent == Some(1) && s[2].child.None?
    ensures Bottom(s, 0) == Ok(2) && Bottom(s, 1) == Ok(2) && Bottom(s, 2) == Ok(2)
  {
    WalkEnd(s, 2, Down, 0);
    ChainEnough(s, 2, Down, 0);
    WalkStep(s, 1, 2, Down, 0, [2]);
    ChainEnough(s, 1, Down, 1);
    assert [1] + [2] == [1, 2];
    WalkStep(s, 0, 1, Down, 1, [1, 2]);
    ChainEnough(s, 0, Down, 2);
  }

  /** The facts test_levels checks, for any experiment, plain group, trial and loose fourth level. */
  lemma ChainFacts(e: Level, g: Level, t: Level, x: Level)
    requires Unlinked(e) && Unlinked(g) && Unlinked(t) && Unlinked(x)
    requires e.kind == ExperimentKind && g.kind == PlainKind && t.kind == TrialKind
    ensures var s := Linked2(e, g, t, x);
            s[0].depth == 0 && s[1].depth == 1 && s[2].depth == 2
            && ParentOf(s[0]).None? && ChildOf(s[0]) == Some(1)
            && ParentOf(s[1]) == Some(0) && ChildOf(s[1]) == Some(2)
            && ParentOf(s[2]) == Some(1) && ChildOf(s[2]).None?
            && s[2].levelName == t.levelName && s[0].levelName == e.levelName
  {
    Linked2At(e, g, t, x);
  }

  /** The refusals of test_levels: a trial takes no child and an experiment no parent. */
  lemma ChainRefusals(e: Level, g: Level, t: Level, x: Level)
    requires Unlinked(e) && Unlinked(t) && Unlinked(x)
    requires e.kind == ExperimentKind && t.kind == TrialKind
    ensures SetChild(Linked2(e, g, t, x), 2, 3) == Err(ValueError)
    ensures SetParent(Linked2(e, g, t, x), 0, 3) == Err(ValueError)
  {
    Linked2At(e, g, t, x);
  }

  /**
   * test_levels: the experiment at depth 0, the group at 1, the trial at
   * 2, the links as set, top and bottom as expected, and a trial refusing
   * a child and an experiment refusing a parent with a ValueError.
   */
  lemma TestLevels()
    ensures var e := NewExperiment("test");
            var g := NewLevel(PlainKind, "group", Some("group1"), None, "");
            var t := NewTrial("trial1");
            var x := NewLevel(PlainKind, "test_level", Some("test_level"), None, "");
            var s1 := SetChild(Loose(e, g, t, x), 0, 1);
            s1.Ok? && SetChild(s1.value, 1, 2).Ok?
            && var s := SetChild(s1.value, 1, 2).value;
            s[0].depth == 0 && s[1].depth == 1 && s[2].depth == 2
            && ParentOf(s[0]).None? && ChildOf(s[0]) == Some(1)
            && ParentOf(s[1]) == Some(0) && ChildOf(s[1]) == Some(2)
            && ParentOf(s[2]) == Some(1) && ChildOf(s[2]).None?
            && s[2].levelName == "trial" && s[0].levelName == "experiment"
            && Top(s, 1) == Ok(0) && Bottom(s, 1) == Ok(2) && Top(s, 2) == Ok(0) && Bottom(s, 0) == Ok(2)
            && SetChild(s, 2, 3) == Err(ValueError) && SetParent(s, 0, 3) == Err(ValueError)
  {
    var e := NewExperiment("test");
    var g := NewLevel(PlainKind, "group", Some("group1"), None, "");
    var t := NewTrial("trial1");
    var x := NewLevel(PlainKind, "test_level", Some("test_level"), None, "");
    LinkGroup(e, g, t, x);
    LinkTrial(e, g, t, x);
    ChainFacts(e, g, t, x);
    ChainRefusals(e, g, t, x);
    var s := Linked2(e, g, t, x);
    Linked2At(e, g, t, x);
    Tops(s);
    Bottoms(s);
  }
}
