/** Dependency loop detection: a depth-first search over the dependents, with the three colours kept
    in `visited`. */
module KconfigLoopCheck {
  import opened Basics
  import opened KconfigModel

  /** `dependents` as built before loop detection, and who is in which choice. */
  datatype Graph = Graph(
    nodes: set<Item>,
    dependents: map<Item, set<Item>>,
    choiceOf: map<string, nat>,
    symsOf: map<nat, seq<string>>)
  {
    /** Where the search can go from `x`: dependents, the choice of a choice symbol, the symbols of a
        choice. */
    function Next(x: Item): set<Item> {
      (if x in dependents then dependents[x] else {}) +
      (match x
       case Sym(s) => if s in choiceOf then {Cho(choiceOf[s])} else {}
       case Cho(c) => if c in symsOf then set m | m in symsOf[c] :: Sym(m) else {})
    }

    /** Only defined items depend on anything. */
    ghost predicate Closed() {
      forall x :: Next(x) <= nodes
    }

    predicate ChoiceFree() {
      choiceOf == map[] && symsOf == map[] && forall x :: x in nodes ==> x.Sym?
    }
  }

  /** Each element is reached from the one after it, and the last from the first. */
  ghost predicate IsRound(g: Graph, loop: seq<Item>) {
    && loop != []
    && IsBackPath(g, loop)
    && loop[|loop| - 1] in g.Next(loop[0])
  }

  /** `y` depends on the symbol `x`; that a symbol is in a choice does not count. */
  predicate IsDependent(g: Graph, y: Item, x: Item) {
    x.Sym? && x in g.dependents && y in g.dependents[x]
  }

  ghost predicate UsesDependency(g: Graph, loop: seq<Item>) {
    exists k :: 0 <= k < |loop| - 1 && IsDependent(g, loop[k], loop[k + 1])
  }

  /** A dependency loop: it does not merely go from symbols to their choice and back. */
  ghost predicate IsCycle(g: Graph, loop: seq<Item>) {
    IsRound(g, loop) && (UsesDependency(g, loop) || IsDependent(g, loop[|loop| - 1], loop[0]))
  }

  ghost predicate IsBackPath(g: Graph, loop: seq<Item>) {
    forall k :: 0 <= k < |loop| - 1 ==> loop[k] in g.Next(loop[k + 1])
  }

  /** What a check returns: nothing found; the part of a loop seen so far, on the way back; or the
      whole loop, raised as an error. */
  datatype Outcome = Clear | Partial(loop: seq<Item>) | Raised(loop: seq<Item>)

  /** What is known of an outcome of checking `x` while `stack` is being searched. */
  ghost predicate Explained(g: Graph, stack: set<Item>, x: Item, r: Outcome) {
    match r
    case Clear => true
    case Partial(loop) => loop != [] && loop[0] in stack && loop[|loop| - 1] == x && IsBackPath(g, loop)
    case Raised(loop) => IsCycle(g, loop)
  }

  /** 0 unvisited, 1 being searched, 2 known to be in no loop. */
  function Colour(visited: map<Item, nat>, x: Item): nat {
    if x in visited then visited[x] else 0
  }

  ghost function Grey(visited: map<Item, nat>): set<Item> {
    set x | x in visited && visited[x] == 1
  }

  ghost function White(g: Graph, visited: map<Item, nat>): set<Item> {
    set x | x in g.nodes && Colour(visited, x) == 0
  }

  ghost predicate Kept(visited: map<Item, nat>, visited': map<Item, nat>) {
    forall x :: Colour(visited, x) != 0 ==> Colour(visited', x) == Colour(visited, x)
  }

  /** `finished` lists what is known to be in no loop: the dependents of a symbol come before it, and
      without choices everything that is reached from an item does. */
  ghost predicate Sound(g: Graph, visited: map<Item, nat>, finished: seq<Item>) {
    && (forall x :: Colour(visited, x) <= 2)
    && (forall x :: x in finished <==> Colour(visited, x) == 2)
    && DependentsFirst(g, finished)
    && (g.ChoiceFree() ==> Topological(g, finished))
  }

  lemma Started(g: Graph, visited: map<Item, nat>, finished: seq<Item>, x: Item)
    requires Sound(g, visited, finished) && Colour(visited, x) == 0 && x in g.nodes
    ensures var v := visited[x := 1];
            && Sound(g, v, finished) && Kept(visited, v) && Grey(v) == Grey(visited) + {x}
            && |White(g, v)| < |White(g, visited)|
  {
    var v := visited[x := 1];
    assert forall y :: Colour(v, y) == if y == x then 1 else Colour(visited, y);
    assert White(g, v) == White(g, visited) - {x};
    ProperSubsetSize(White(g, v), White(g, visited));
  }

  lemma Ended(g: Graph, visited: map<Item, nat>, finished: seq<Item>, x: Item)
    requires Sound(g, visited, finished) && Colour(visited, x) == 1
    requires forall y :: IsDependent(g, y, x) || (g.ChoiceFree() && y in g.Next(x)) ==> Colour(visited, y) == 2
    ensures var v := visited[x := 2];
            Sound(g, v, finished + [x]) && Grey(v) == Grey(visited) - {x} && Colour(v, x) == 2
  {
    var v, f := visited[x := 2], finished + [x];
    assert forall y :: Colour(v, y) == if y == x then 2 else Colour(visited, y);
    forall k, y | 0 <= k < |f| && (IsDependent(g, y, f[k]) || (g.ChoiceFree() && y in g.Next(f[k])))
      ensures y in f[..k]
    {
      if k < |finished| {
        assert f[..k] == finished[..k];
      } else {
        assert f[..k] == finished;
      }
    }
  }

  /** Whites only become fewer. */
  lemma FewerWhites(g: Graph, visited: map<Item, nat>, visited': map<Item, nat>)
    requires Kept(visited, visited')
    ensures |White(g, visited')| <= |White(g, visited)|
  {
    forall x | x in White(g, visited') ensures x in White(g, visited) {}
    SubsetSize(White(g, visited'), White(g, visited));
  }

  lemma ThreeColours(g: Graph, visited: map<Item, nat>, finished: seq<Item>, x: Item)
    requires Sound(g, visited, finished)
    ensures Colour(visited, x) <= 2
  {}

  lemma ShortPath(g: Graph, x: Item)
    ensures IsBackPath(g, [x])
  {}

  lemma LongerLoop(g: Graph, loop: seq<Item>, x: Item)
    requires loop != []
    ensures UsesDependency(g, loop) || IsDependent(g, loop[|loop| - 1], x) ==> UsesDependency(g, loop + [x])
  {
    var longer := loop + [x];
    if UsesDependency(g, loop) {
      var k :| 0 <= k < |loop| - 1 && IsDependent(g, loop[k], loop[k + 1]);
      assert IsDependent(g, longer[k], longer[k + 1]);
    } else if IsDependent(g, loop[|loop| - 1], x) {
      var k := |loop| - 1;
      assert IsDependent(g, longer[k], longer[k + 1]);
    }
  }

  lemma NextOfSym(g: Graph, s: string)
    ensures s in g.choiceOf ==> Cho(g.choiceOf[s]) in g.Next(Sym(s))
    ensures g.ChoiceFree() ==> g.Next(Sym(s)) == if Sym(s) in g.dependents then g.dependents[Sym(s)] else {}
  {}

  class Checker {
    const graph: Graph
    var visited: map<Item, nat>

    /** The order in which items were found to be in no loop. */
    ghost var finished: seq<Item>

    ghost predicate Valid()
      reads this
    {
      graph.Closed() && Sound(graph, visited, finished)
    }

    constructor (g: Graph)
      requires g.Closed()
      ensures graph == g && visited == map[] && finished == [] && Valid()
    {
      graph := g;
      visited := map[];
      finished := [];
    }

    /** _found_dep_loop(): closes the loop when it is back where it started. */
    method FoundDepLoop(loop: seq<Item>, cur: Item) returns (r: Outcome)
      requires loop != [] && IsBackPath(graph, loop) && loop[|loop| - 1] in graph.Next(cur)
      requires cur == loop[0] ==> UsesDependency(graph, loop) || IsDependent(graph, loop[|loop| - 1], cur)
      ensures if cur == loop[0] then r == Raised(loop) && IsCycle(graph, loop)
              else r == Partial(loop + [cur]) && IsBackPath(graph, loop + [cur])
      ensures UsesDependency(graph, loop) || IsDependent(graph, loop[|loop| - 1], cur) ==>
                UsesDependency(graph, loop + [cur])
    {
      LongerLoop(graph, loop, cur);
      if cur != loop[0] {
        r := Partial(loop + [cur]);
      } else {
        r := Raised(loop);
      }
    }

    /** _check_dep_loop_sym(). */
    method CheckSym(s: string, ignoreChoice: bool) returns (r: Outcome)
      requires Valid() && Sym(s) in graph.nodes
      modifies this
      ensures Valid() && Explained(graph, old(Grey(visited)), Sym(s), r) && Kept(old(visited), visited)
      ensures r.Clear? ==> Colour(visited, Sym(s)) == 2 && Grey(visited) == old(Grey(visited))
      ensures r.Partial? && ignoreChoice ==> r.loop == [Sym(s)] || UsesDependency(graph, r.loop)
      decreases |White(graph, visited)|, 1
    {
      hide Sound, IsBackPath, IsCycle, White, Graph.Next, UsesDependency, IsDependent;
      var x := Sym(s);
      if Colour(visited, x) == 2 { return Clear; }
      ShortPath(graph, x);
      ThreeColours(graph, visited, finished, x);
      if Colour(visited, x) == 1 { return Partial([x]); }
      Started(graph, visited, finished, x);
      visited := visited[x := 1];
      r := CheckDependents(x);
      if r.Raised? { return; }
      if r.Partial? { r := FoundDepLoop(r.loop, x); return; }
      if s in graph.choiceOf && !ignoreChoice {
        NextOfSym(graph, s);
        FewerWhites(graph, old(visited)[x := 1], visited);
        r := CheckChoice(graph.choiceOf[s], Some(s));
        if r.Raised? { return; }
        if r.Partial? { r := FoundDepLoop(r.loop, x); return; }
      }
      NextOfSym(graph, s);
      Ended(graph, visited, finished, x);
      visited := visited[x := 2];
      finished := finished + [x];
      r := Clear;
    }

    /** The loop over the dependents of a symbol; a partial loop ends in one of them. */
    method CheckDependents(x: Item) returns (r: Outcome)
      requires Valid() && x in graph.nodes && x.Sym?
      modifies this
      ensures Valid() && Kept(old(visited), visited)
      ensures r.Clear? ==>
                && Grey(visited) == old(Grey(visited))
                && (x in graph.dependents ==> forall y :: y in graph.dependents[x] ==> Colour(visited, y) == 2)
                && (forall y :: IsDependent(graph, y, x) ==> Colour(visited, y) == 2)
      ensures !r.Clear? ==>
                exists dep :: dep in graph.Next(x) && IsDependent(graph, dep, x) &&
                              Explained(graph, old(Grey(visited)), dep, r)
      decreases |White(graph, visited)|, 3
    {
      var todo := if x in graph.dependents then graph.dependents[x] else {};
      ghost var all := todo;
      while todo != {}
        invariant Valid() && Kept(old(visited), visited) && Grey(visited) == old(Grey(visited)) && todo <= all
        invariant forall y :: y in all && y !in todo ==> Colour(visited, y) == 2
        decreases todo
      {
        var dep :| dep in todo;
        todo := todo - {dep};
        FewerWhites(graph, old(visited), visited);
        assert dep in graph.Next(x) && IsDependent(graph, dep, x);
        match dep {
          case Cho(c) => r := CheckChoice(c, None);
          case Sym(d) => r := CheckSym(d, false);
        }
        if !r.Clear? { return; }
      }
      r := Clear;
    }

    /** _check_dep_loop_choice(). */
    method CheckChoice(c: nat, skip: Option<string>) returns (r: Outcome)
      requires Valid() && Cho(c) in graph.nodes
      modifies this
      ensures Valid() && Explained(graph, old(Grey(visited)), Cho(c), r) && Kept(old(visited), visited)
      ensures r.Clear? ==> Colour(visited, Cho(c)) == 2 && Grey(visited) == old(Grey(visited))
      ensures r.Partial? && skip.Some? && r.loop[0] == Sym(skip.value) ==> UsesDependency(graph, r.loop)
      decreases |White(graph, visited)|, 2
    {
      var x := Cho(c);
      if Colour(visited, x) == 2 { return Clear; }
      if Colour(visited, x) == 1 { return Partial([x]); }
      Started(graph, visited, finished, x);
      visited := visited[x := 1];
      ghost var v, grey := visited, Grey(visited);
      var syms := if c in graph.symsOf then graph.symsOf[c] else [];
      for n := 0 to |syms|
        invariant Valid() && Kept(v, visited) && Grey(visited) == grey && Colour(visited, x) == 1
      {
        if Some(syms[n]) != skip {
          assert Sym(syms[n]) in graph.Next(x);
          FewerWhites(graph, v, visited);
          r := CheckSym(syms[n], true);
          if r.Raised? { return; }
          if r.Partial? { r := FoundDepLoop(r.loop, x); return; }
        }
      }
      Ended(graph, visited, finished, x);
      visited := visited[x := 2];
      finished := finished + [x];
      r := Clear;
    }

    /** The check over all defined symbols. */
    method CheckAll(syms: seq<string>) returns (r: Outcome)
      requires Valid() && Grey(visited) == {} && forall s :: s in syms ==> Sym(s) in graph.nodes
      modifies this
      ensures Valid() && !r.Partial? && (r.Raised? ==> IsCycle(graph, r.loop))
      ensures r.Clear? ==> forall s :: s in syms ==> Sym(s) in finished
    {
      for n := 0 to |syms|
        invariant Valid() && Grey(visited) == {}
        invariant forall s :: s in syms[..n] ==> Colour(visited, Sym(s)) == 2
      {
        r := CheckSym(syms[n], false);
        if !r.Clear? { return; }
      }
      r := Clear;
    }
  }

  /** Every element depends on the one after it, and the last on the first. */
  ghost predicate IsDependencyLoop(g: Graph, loop: seq<Item>) {
    loop != [] && forall k :: 0 <= k < |loop| ==> IsDependent(g, loop[k], loop[After(loop, k)])
  }

  function After(loop: seq<Item>, k: nat): (j: nat)
    requires k < |loop|
    ensures j < |loop|
  {
    if k == |loop| - 1 then 0 else k + 1
  }

  function Before(loop: seq<Item>, k: nat): (j: nat)
    requires k < |loop|
    ensures j < |loop| && After(loop, j) == k
  {
    if k == 0 then |loop| - 1 else k - 1
  }

  /** If each element of a loop comes after the one it is followed by, there is no such loop. */
  lemma {:induction false} NoLoopInOrder(order: seq<Item>, loop: seq<Item>, k: nat)
    requires k < |loop| && loop[k] in order
    requires forall i, p :: 0 <= i < |loop| && 0 <= p < |order| && order[p] == loop[i] ==>
               loop[Before(loop, i)] in order[..p]
    ensures false
    decreases Position(order, loop[k])
  {
    var p := Position(order, loop[k]);
    var prev := Before(loop, k);
    assert loop[prev] in order[..p];
    var q :| 0 <= q < p && order[q] == loop[prev];
    assert Position(order, loop[prev]) <= q;
    NoLoopInOrder(order, loop, prev);
  }

  lemma NoRoundInOrder(g: Graph, order: seq<Item>, loop: seq<Item>)
    requires Topological(g, order) && IsRound(g, loop) && loop[0] in order
    ensures false
  {
    forall i, p | 0 <= i < |loop| && 0 <= p < |order| && order[p] == loop[i]
      ensures loop[Before(loop, i)] in order[..p]
    {
      assert loop[Before(loop, i)] in g.Next(loop[i]);
    }
    NoLoopInOrder(order, loop, 0);
  }

  lemma NoDependencyLoopInOrder(g: Graph, order: seq<Item>, loop: seq<Item>)
    requires DependentsFirst(g, order) && IsDependencyLoop(g, loop) && loop[0] in order
    ensures false
  {
    forall i, p | 0 <= i < |loop| && 0 <= p < |order| && order[p] == loop[i]
      ensures loop[Before(loop, i)] in order[..p]
    {
      var j := Before(loop, i);
      assert IsDependent(g, loop[j], loop[After(loop, j)]);
    }
    NoLoopInOrder(order, loop, 0);
  }

  /** The first place of `x`. */
  function Position(order: seq<Item>, x: Item): (p: nat)
    requires x in order
    ensures p < |order| && order[p] == x && forall q :: 0 <= q < p ==> order[q] != x
  {
    if order[0] == x then 0 else (assert x in order[1..]; 1 + Position(order[1..], x))
  }

  /** What is raised is a loop that uses a dependency, and every loop of dependencies between symbols is
      found. Without choices, the check raises an error exactly when there is a loop at all. */
  method CheckDepLoops(g: Graph, syms: seq<string>) returns (r: Outcome, ghost order: seq<Item>)
    requires g.Closed() && forall s :: Sym(s) in g.nodes <==> s in syms
    ensures !r.Partial? && (r.Raised? ==> IsCycle(g, r.loop))
    ensures (exists loop :: IsDependencyLoop(g, loop)) ==> r.Raised?
    ensures g.ChoiceFree() ==>
              (r.Raised? <==> exists loop :: IsRound(g, loop) && forall x :: x in loop ==> x in g.nodes)
    ensures r.Clear? && g.ChoiceFree() ==> Topological(g, order) && forall x :: x in g.nodes ==> x in order
  {
    var checker := new Checker(g);
    r := checker.CheckAll(syms);
    order := checker.finished;
    if r.Clear? {
      forall loop | IsDependencyLoop(g, loop) ensures false {
        DependencyLoopInside(g, loop);
        NoDependencyLoopInOrder(g, order, loop);
      }
      forall loop | g.ChoiceFree() && IsRound(g, loop) && forall x :: x in loop ==> x in g.nodes ensures false {
        assert loop[0] in loop;
        NoRoundInOrder(g, order, loop);
      }
    } else if g.ChoiceFree() {
      CycleStaysInside(g, r.loop);
    }
  }

  lemma DependencyLoopInside(g: Graph, loop: seq<Item>)
    requires g.Closed() && IsDependencyLoop(g, loop)
    ensures loop[0].Sym? && loop[0] in g.nodes
  {
    var last := |loop| - 1;
    assert IsDependent(g, loop[last], loop[After(loop, last)]);
    assert IsDependent(g, loop[0], loop[After(loop, 0)]);
    assert loop[0] in g.Next(loop[After(loop, 0)]);
  }

  /** A loop lies among the nodes: its first element is reached from the second, and so on around. */
  lemma CycleStaysInside(g: Graph, loop: seq<Item>)
    requires g.Closed() && g.ChoiceFree() && IsRound(g, loop)
    ensures forall x :: x in loop ==> x in g.nodes
  {
    forall k | 0 <= k < |loop| ensures loop[k] in g.nodes {
      var next := if k == |loop| - 1 then 0 else k + 1;
      assert loop[k] in g.Next(loop[next]);
      assert loop[next] in g.dependents;
    }
  }

  /** Everything reached from an item of the order comes before it. */
  ghost predicate Topological(g: Graph, order: seq<Item>) {
    forall k, y :: 0 <= k < |order| && y in g.Next(order[k]) ==> y in order[..k]
  }

  /** The dependents of a symbol of the order come before it. */
  ghost predicate DependentsFirst(g: Graph, order: seq<Item>) {
    forall k, y :: 0 <= k < |order| && IsDependent(g, y, order[k]) ==> y in order[..k]
  }

  // What acceptance means for values

  /** `g` is the dependency graph of a configuration without choices. */
  ghost predicate GraphOf(cfg: Config, g: Graph) {
    && cfg.choices == map[] && g.ChoiceFree() && g.nodes == Defined(cfg)
    && (forall d, i :: (d in g.dependents && i in g.dependents[d]) <==> d in Inputs(cfg, i))
    && (forall s :: s in cfg.syms ==>
          && cfg.syms[s].choice.None?
          && (forall d :: d in Inputs(cfg, Sym(s)) ==> d.Sym?)
          && (!cfg.syms[s].kind.Logical() ==>
                forall k :: 0 <= k < |cfg.syms[s].defaults| ==> cfg.syms[s].defaults[k].value.Leaf?))
  }

  /** `early` holds MODULES and everything it depends on, and nothing tristate. */
  ghost predicate ModulesEarly(cfg: Config, early: set<Item>) {
    && Sym(MODULES) in early
    && (forall i :: i in early ==> Inputs(cfg, i) <= early)
    && (forall s :: s in cfg.syms && Sym(s) in early ==> cfg.syms[s].kind != Tristate)
  }

  function RankIn(order: seq<Item>, early: set<Item>, i: Item): nat {
    (if i in order then |order| - Position(order, i) else 0) + (if i in early then 0 else |order| + 1)
  }

  lemma InputsRankLower(cfg: Config, g: Graph, order: seq<Item>, early: set<Item>, s: string, d: Item)
    requires GraphOf(cfg, g) && Topological(g, order) && ModulesEarly(cfg, early)
    requires s in cfg.syms && Sym(s) in order && d in Inputs(cfg, Sym(s))
    ensures RankIn(order, early, d) < RankIn(order, early, Sym(s))
  {
    if d in order {
      var p := Position(order, d);
      assert Sym(s) in g.Next(order[p]);
      assert Sym(s) in order[..p];
      var q :| 0 <= q < p && order[q] == Sym(s);
    }
  }

  lemma {:induction false} LevelBelow(cfg: Config, e: Expr, r: nat)
    requires forall d :: d in Items(e) ==> d.Sym? && cfg.rank(d) < r
    ensures Level(cfg, e) <= 8 * r
  {
    match e
    case Leaf(a) => if a.Ref? { assert a.item in Items(e); }
    case And(x, y) => LevelBelow(cfg, x, r); LevelBelow(cfg, y, r);
    case Or(x, y) => LevelBelow(cfg, x, r); LevelBelow(cfg, y, r);
    case Not(f) => LevelBelow(cfg, f, r);
    case Rel(_, x, y) =>
      if x.Ref? { assert x.item in Items(e); }
      if y.Ref? { assert y.item in Items(e); }
  }

  /** A configuration without choices that passes the check is well-founded: its items can be ranked
      so that every value, visibility and assignable set is computed from lower ranks only. */
  lemma AcceptedIsWellFormed(cfg: Config, g: Graph, order: seq<Item>, early: set<Item>)
    requires GraphOf(cfg, g) && Topological(g, order) && ModulesEarly(cfg, early)
    requires forall x :: x in g.nodes ==> x in order
    ensures WellFormed(cfg.(rank := i => RankIn(order, early, i)))
  {
    var ranked := cfg.(rank := i => RankIn(order, early, i));
    forall s | s in ranked.syms ensures SymOk(ranked, s) {
      var r := ranked.rank(Sym(s));
      assert Sym(s) in Defined(cfg);
      forall e | e in SymExprs(cfg.syms[s]) ensures Level(ranked, e) <= 8 * r {
        forall d | d in Items(e) ensures d.Sym? && ranked.rank(d) < r {
          assert d in Inputs(cfg, Sym(s));
          InputsRankLower(cfg, g, order, early, s, d);
        }
        LevelBelow(ranked, e, r);
      }
    }
  }
}
