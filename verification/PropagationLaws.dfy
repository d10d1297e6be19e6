/** What the conditions mean after propagation, in terms of the conditions that were written. */
module KconfigPropagationLaws {
  import opened KconfigModel
  import opened KconfigMenuTree
  import opened KconfigPropagation

  /** `path` leads from a node of `f` down to a node below it. */
  predicate IsPath(f: Forest, path: seq<Id>)
    decreases f
  {
    path != [] && f.Node? &&
    ((f.id == path[0] && (|path| == 1 || IsPath(f.list, path[1..]))) || IsPath(f.next, path))
  }

  /** The nearest choice above the end of the path, or -1. */
  function LastChoice(item: Id -> NodeItem, path: seq<Id>): (j: int)
    ensures -1 <= j < |path| && (j >= 0 ==> j < |path| - 1 && item(path[j]).ChoiceItem?)
    ensures forall i :: 0 <= i < |path| - 1 && i > j ==> !item(path[i]).ChoiceItem?
  {
    if |path| <= 1 then -1
    else
      var j := LastChoice(item, path[1..]);
      assert forall i :: 0 < i < |path| - 1 && i > j + 1 ==> item(path[i]) == item(path[1..][i - 1]);
      if j >= 0 then j + 1 else if item(path[0]).ChoiceItem? then 0 else -1
  }

  predicate WrittenFor(w: Table, path: seq<Id>) { forall x :: x in path ==> x in w }

  /** All dependencies written between the nearest choice and the end of the path allow `t`. */
  predicate DepsAllow(v: Valuation, w: Table, path: seq<Id>, j: int, t: Tri)
    requires WrittenFor(w, path)
  {
    forall i :: 0 <= i < |path| && i > j ==> t <= v.Of(w[path[i]].dep)
  }

  /** All `visible if` conditions of menus above the end of the path allow `t`. */
  predicate MenusAllow(v: Valuation, item: Id -> NodeItem, w: Table, path: seq<Id>, t: Tri)
    requires WrittenFor(w, path)
  {
    forall i :: 0 <= i < |path| - 1 && item(path[i]).MenuItem? ==> t <= v.Of(w[path[i]].visibility)
  }

  /** What encloses the end of the path allows `t`: the mode of the nearest choice or, without one,
      what is outside `f`. */
  predicate OutsideAllows(v: Valuation, item: Id -> NodeItem, path: seq<Id>, base: Expr, t: Tri) {
    var j := LastChoice(item, path);
    t <= if j >= 0 then v.atom(Ref(Cho(item(path[j]).choice))) else v.Of(base)
  }

  lemma {:induction false} PathWritten(item: Id -> NodeItem, w: Table, p: Table, f: Forest, base: Expr,
                                       visibleIf: Expr, path: seq<Id>)
    requires Done(item, w, p, f, base, visibleIf) && IsPath(f, path)
    ensures WrittenFor(w, path) && path[|path| - 1] in p
    decreases f
  {
    if f.id == path[0] && (|path| == 1 || IsPath(f.list, path[1..])) {
      if |path| > 1 {
        PathWritten(item, w, p, f.list, BaseOf(item(f.id), p[f.id]), VisibleIf(item(f.id), w[f.id], visibleIf),
                    path[1..]);
        assert path == [path[0]] + path[1..];
      }
    } else {
      PathWritten(item, w, p, f.next, base, visibleIf, path);
    }
  }

  /** The dependencies along a path are that of its first node and those of the rest. */
  lemma DepsAllowTail(v: Valuation, w: Table, path: seq<Id>, j: int, t: Tri)
    requires |path| > 1 && WrittenFor(w, path) && WrittenFor(w, path[1..]) && j >= -1
    ensures DepsAllow(v, w, path, j, t) <==>
            (j == -1 ==> t <= v.Of(w[path[0]].dep)) && DepsAllow(v, w, path[1..], j - 1, t)
  {}

  lemma DepsAllowStep(v: Valuation, item: Id -> NodeItem, w: Table, path: seq<Id>, base: Expr, base': Expr, t: Tri)
    requires |path| > 1 && WrittenFor(w, path) && v.Sane()
    requires v.Of(base') == if item(path[0]).ChoiceItem? then v.atom(Ref(Cho(item(path[0]).choice)))
                            else Min(v.Of(w[path[0]].dep), v.Of(base))
    ensures WrittenFor(w, path[1..])
    ensures var rest := path[1..];
            OutsideAllows(v, item, rest, base', t) && DepsAllow(v, w, rest, LastChoice(item, rest), t) <==>
            OutsideAllows(v, item, path, base, t) && DepsAllow(v, w, path, LastChoice(item, path), t)
  {
    hide DepsAllow, LastChoice, Valuation.Of;
    var rest := path[1..];
    assert forall x :: x in rest ==> x in path;
    var j, k := LastChoice(item, rest), LastChoice(item, path);
    LastChoiceTail(item, path);
    DepsAllowTail(v, w, path, k, t);
    FromStart(v, w, rest, t);
    assert j >= 0 ==> rest[j] == path[k];
  }

  lemma LastChoiceTail(item: Id -> NodeItem, path: seq<Id>)
    requires |path| > 1
    ensures var j := LastChoice(item, path[1..]);
            LastChoice(item, path) == if j >= 0 then j + 1 else if item(path[0]).ChoiceItem? then 0 else -1
  {}

  lemma FromStart(v: Valuation, w: Table, path: seq<Id>, t: Tri)
    requires WrittenFor(w, path)
    ensures DepsAllow(v, w, path, -2, t) == DepsAllow(v, w, path, -1, t)
  {}

  /** After propagation the dependency of a node is the minimum of those written for it and for every
      node above it up to the nearest choice, and of the mode of that choice. */
  lemma {:induction false} DepMeans(v: Valuation, item: Id -> NodeItem, w: Table, p: Table, f: Forest, base: Expr,
                                    visibleIf: Expr,
                                    path: seq<Id>, t: Tri)
    requires v.Sane() && Done(item, w, p, f, base, visibleIf) && IsPath(f, path)
    ensures WrittenFor(w, path) && path[|path| - 1] in p
    ensures t <= v.Of(p[path[|path| - 1]].dep) <==>
            OutsideAllows(v, item, path, base, t) && DepsAllow(v, w, path, LastChoice(item, path), t)
    decreases f
  {
    PathWritten(item, w, p, f, base, visibleIf, path);
    hide DepsAllow, OutsideAllows, LastChoice, Valuation.Of;
    if f.id == path[0] && (|path| == 1 || IsPath(f.list, path[1..])) {
      MakeMeans(v, w[f.id].dep, base);
      if |path| == 1 {
        DepMeansHere(v, item, w, path, base, t);
      } else {
        var base' := BaseOf(item(f.id), p[f.id]);
        DepMeans(v, item, w, p, f.list, base', VisibleIf(item(f.id), w[f.id], visibleIf), path[1..], t);
        LeafMeans(v, item(f.id));
        DepsAllowStep(v, item, w, path, base, base', t);
      }
    } else {
      DepMeans(v, item, w, p, f.next, base, visibleIf, path, t);
    }
  }

  lemma LeafMeans(v: Valuation, i: NodeItem)
    ensures i.ChoiceItem? ==> v.Of(Leaf(Ref(Cho(i.choice)))) == v.atom(Ref(Cho(i.choice)))
  {}

  lemma DepMeansHere(v: Valuation, item: Id -> NodeItem, w: Table, path: seq<Id>, base: Expr, t: Tri)
    requires |path| == 1 && WrittenFor(w, path)
    ensures OutsideAllows(v, item, path, base, t) && DepsAllow(v, w, path, LastChoice(item, path), t) <==>
            t <= v.Of(w[path[0]].dep) && t <= v.Of(base)
  {}

  /** `visible if` along a path is that of its first node and those of the rest. */
  lemma MenusAllowStep(v: Valuation, item: Id -> NodeItem, w: Table, path: seq<Id>, t: Tri)
    requires |path| > 1 && WrittenFor(w, path) && WrittenFor(w, path[1..])
    ensures MenusAllow(v, item, w, path, t) <==>
            (item(path[0]).MenuItem? ==> t <= v.Of(w[path[0]].visibility)) && MenusAllow(v, item, w, path[1..], t)
  {}

  /** What the end of a path has got from above. */
  lemma {:induction false} AtEnd(v: Valuation, item: Id -> NodeItem, w: Table, p: Table, f: Forest, base: Expr,
                                 visibleIf: Expr,
                                 path: seq<Id>, t: Tri)
    returns (b: Expr, vi: Expr)
    requires v.Sane() && Done(item, w, p, f, base, visibleIf) && IsPath(f, path)
    ensures WrittenFor(w, path)
    ensures var x := path[|path| - 1]; x in w && x in p && p[x] == Propagated(item(x), w[x], b, vi)
    ensures t <= v.Of(vi) <==> t <= v.Of(visibleIf) && MenusAllow(v, item, w, path, t)
    decreases f
  {
    PathWritten(item, w, p, f, base, visibleIf, path);
    hide MenusAllow, Valuation.Of, Propagated, WrittenFor;
    if f.id == path[0] && (|path| == 1 || IsPath(f.list, path[1..])) {
      if |path| == 1 {
        b, vi := base, visibleIf;
        NoMenus(v, item, w, path, t);
      } else {
        MakeMeans(v, visibleIf, w[f.id].visibility);
        b, vi := AtEnd(v, item, w, p, f.list, BaseOf(item(f.id), p[f.id]), VisibleIf(item(f.id), w[f.id], visibleIf),
                       path[1..], t);
        MenusAllowStep(v, item, w, path, t);
      }
    } else {
      b, vi := AtEnd(v, item, w, p, f.next, base, visibleIf, path, t);
    }
  }

  lemma NoMenus(v: Valuation, item: Id -> NodeItem, w: Table, path: seq<Id>, t: Tri)
    requires |path| == 1 && WrittenFor(w, path)
    ensures MenusAllow(v, item, w, path, t)
  {}

  /** After propagation a prompt of a symbol or choice is as visible as its written condition, the
      `visible if` conditions of all menus above it and its dependency allow; other prompts do not
      depend on `visible if`. */
  lemma PromptMeans(v: Valuation, item: Id -> NodeItem, w: Table, p: Table, f: Forest, base: Expr, visibleIf: Expr,
                    path: seq<Id>, t: Tri)
    requires v.Sane() && Done(item, w, p, f, base, visibleIf) && IsPath(f, path)
    ensures var x := path[|path| - 1];
            && WrittenFor(w, path) && x in w && x in p && (p[x].prompt.Some? <==> w[x].prompt.Some?)
            && (p[x].prompt.Some? ==>
                  (t <= v.Of(p[x].prompt.value) <==>
                     && t <= v.Of(w[x].prompt.value) && t <= v.Of(p[x].dep)
                     && (item(x).Carries() ==> t <= v.Of(visibleIf) && MenusAllow(v, item, w, path, t))))
  {
    var b, vi := AtEnd(v, item, w, p, f, base, visibleIf, path, t);
    hide MenusAllow, Valuation.Of, Done, IsPath, WrittenFor, MakeAnd;
    var x := path[|path| - 1];
    if w[x].prompt.Some? {
      MakeMeans(v, w[x].prompt.value, MakeAnd(vi, p[x].dep));
      MakeMeans(v, vi, p[x].dep);
      MakeMeans(v, w[x].prompt.value, p[x].dep);
    }
  }

  /** The other conditions of symbols and choices are limited by the dependency, and only they change. */
  lemma ConditionsMean(v: Valuation, item: Id -> NodeItem, w: Table, p: Table, f: Forest, base: Expr,
                       visibleIf: Expr, path: seq<Id>)
    requires v.Sane() && Done(item, w, p, f, base, visibleIf) && IsPath(f, path) && item(path[|path| - 1]).Carries()
    ensures var x := path[|path| - 1];
            && x in w && x in p && LimitedDefaults(v, w[x].defaults, p[x].defaults, p[x].dep)
            && LimitedRanges(v, w[x].ranges, p[x].ranges, p[x].dep)
            && LimitedTargets(v, w[x].selects, p[x].selects, p[x].dep)
            && LimitedTargets(v, w[x].implies, p[x].implies, p[x].dep)
  {
    var b, vi := AtEnd(v, item, w, p, f, base, visibleIf, path, 0);
    hide MenusAllow, Done, IsPath, WrittenFor, MakeAnd, Valuation.Of;
    var x := path[|path| - 1];
    AddedLimits(v, w[x].defaults, w[x].ranges, p[x].dep);
    AddedToTargets(v, w[x].selects, p[x].dep);
    AddedToTargets(v, w[x].implies, p[x].dep);
    hide LimitedDefaults, LimitedRanges, LimitedTargets, AddToDefaults, AddToRanges, AddToTargets;
  }

  lemma AddedLimits(v: Valuation, ds: seq<Default>, rs: seq<Range>, dep: Expr)
    requires v.Sane()
    ensures LimitedDefaults(v, ds, AddToDefaults(ds, dep), dep) && LimitedRanges(v, rs, AddToRanges(rs, dep), dep)
  {}

  lemma AddedToTargets(v: Valuation, ts: seq<Target>, dep: Expr)
    requires v.Sane()
    ensures LimitedTargets(v, ts, AddToTargets(ts, dep), dep)
  {}

  predicate LimitedDefaults(v: Valuation, a: seq<Default>, b: seq<Default>, dep: Expr) {
    |a| == |b| && forall k :: 0 <= k < |a| ==>
      b[k].value == a[k].value && v.Of(b[k].cond) == Min(v.Of(a[k].cond), v.Of(dep))
  }

  predicate LimitedRanges(v: Valuation, a: seq<Range>, b: seq<Range>, dep: Expr) {
    |a| == |b| && forall k :: 0 <= k < |a| ==>
      b[k].low == a[k].low && b[k].high == a[k].high && v.Of(b[k].cond) == Min(v.Of(a[k].cond), v.Of(dep))
  }

  predicate LimitedTargets(v: Valuation, a: seq<Target>, b: seq<Target>, dep: Expr) {
    |a| == |b| && forall k :: 0 <= k < |a| ==>
      b[k].name == a[k].name && v.Of(b[k].cond) == Min(v.Of(a[k].cond), v.Of(dep))
  }

  // What is gathered

  function TargetsOf(p: Props, weak: bool): seq<Target> { if weak then p.implies else p.selects }

  /** One of the targets is `target`, and both `s` and the condition allow `t`. */
  predicate Reached(v: Valuation, s: string, ts: seq<Target>, target: string, t: Tri) {
    exists k :: 0 <= k < |ts| && ts[k].name == target && t <= v.atom(Ref(Sym(s))) && t <= v.Of(ts[k].cond)
  }

  lemma {:induction false} AddReverseMeans(v: Valuation, syms: map<string, SymProps>, s: string, ts: seq<Target>,
                                           weak: bool, target: string, t: Tri)
    requires v.Sane() && t > 0
    ensures var m := SymIn(syms, target); var m' := SymIn(AddReverse(syms, s, ts, weak), target);
            && (t <= v.Of(Reverse(m', weak)) <==> t <= v.Of(Reverse(m, weak)) || Reached(v, s, ts, target, t))
            && m' == WithReverse(m, weak, Reverse(m', weak))
  {
    if ts != [] {
      var n := |ts| - 1;
      var last := ts[n];
      AddReverseMeans(v, syms, s, ts[..n], weak, target, t);
      var m := SymIn(AddReverse(syms, s, ts[..n], weak), last.name);
      MakeMeans(v, Leaf(Ref(Sym(s))), last.cond);
      MakeMeans(v, Reverse(m, weak), MakeAnd(Leaf(Ref(Sym(s))), last.cond));
      SymMeans(v, s);
      ReachedLast(v, s, ts, target, t);
      hide Reached, Valuation.Of, MakeAnd, MakeOr;
    }
  }

  lemma SymMeans(v: Valuation, s: string)
    ensures v.Of(Leaf(Ref(Sym(s)))) == v.atom(Ref(Sym(s)))
  {}

  lemma ReachedLast(v: Valuation, s: string, ts: seq<Target>, target: string, t: Tri)
    requires ts != []
    ensures var n := |ts| - 1;
            Reached(v, s, ts, target, t) <==>
            || Reached(v, s, ts[..n], target, t)
            || (ts[n].name == target && t <= v.atom(Ref(Sym(s))) && t <= v.Of(ts[n].cond))
  {}

  /** What one node adds to a symbol. */
  lemma AddNodeMeans(v: Valuation, item: NodeItem, p: Props, t0: Totals, s: string, t: Tri)
    requires v.Sane() && t > 0
    ensures var m, m' := t0.SymOf(s), AddNode(item, p, t0).SymOf(s);
            var own := item == SymItem(s);
            && (t <= v.Of(m'.directDep) <==> t <= v.Of(m.directDep) || (own && t <= v.Of(p.dep)))
            && m'.defaults == m.defaults + (if own then p.defaults else [])
            && m'.ranges == m.ranges + (if own then p.ranges else [])
            && m'.selects == m.selects + (if own then p.selects else [])
            && m'.implies == m.implies + (if own then p.implies else [])
            && (forall weak :: t <= v.Of(Reverse(m', weak)) <==>
                  t <= v.Of(Reverse(m, weak)) || (item.SymItem? && Reached(v, item.name, TargetsOf(p, weak), s, t)))
  {
    hide Reached, Valuation.Of, MakeOr, AddReverse;
    if item.SymItem? {
      var syms1 := t0.syms[item.name := WithNode(t0.SymOf(item.name), p)];
      var syms2 := AddReverse(syms1, item.name, p.selects, false);
      AddReverseMeans(v, syms1, item.name, p.selects, false, s, t);
      AddReverseMeans(v, syms2, item.name, p.implies, true, s, t);
      MakeMeans(v, t0.SymOf(s).directDep, p.dep);
    }
  }

  /** The nodes of `order` that are in the table. */
  predicate Listed(order: seq<Id>, p: Table, x: Id) { x in order && x in p }

  /** Some node of the item in `order` allows `t`. */
  ghost predicate DirectlyAllowed(v: Valuation, item: Id -> NodeItem, p: Table, order: seq<Id>, i: NodeItem, t: Tri) {
    exists x :: Listed(order, p, x) && item(x) == i && t <= v.Of(p[x].dep)
  }

  /** Some select, or imply, of `s` in `order` allows `t`. */
  ghost predicate Forced(v: Valuation, item: Id -> NodeItem, p: Table, order: seq<Id>, weak: bool, s: string, t: Tri) {
    exists x :: Listed(order, p, x) && item(x).SymItem? && Reached(v, item(x).name, TargetsOf(p[x], weak), s, t)
  }

  function DefaultsOf(item: Id -> NodeItem, p: Table, order: seq<Id>, i: NodeItem): seq<Default> {
    if order == [] then []
    else
      var x := order[|order| - 1];
      DefaultsOf(item, p, order[..|order| - 1], i) + if x in p && item(x) == i then p[x].defaults else []
  }

  function ListedTargets(item: Id -> NodeItem, p: Table, order: seq<Id>, s: string, weak: bool): seq<Target> {
    if order == [] then []
    else
      var x := order[|order| - 1];
      ListedTargets(item, p, order[..|order| - 1], s, weak) +
      if x in p && item(x) == SymItem(s) then TargetsOf(p[x], weak) else []
  }

  function RangesOf(item: Id -> NodeItem, p: Table, order: seq<Id>, s: string): seq<Range> {
    if order == [] then []
    else
      var x := order[|order| - 1];
      RangesOf(item, p, order[..|order| - 1], s) + if x in p && item(x) == SymItem(s) then p[x].ranges else []
  }

  /** After finalization the direct dependency of a symbol is the maximum over its definitions, what
      selects or implies it is the maximum over all selects or implies of the minimum of selector and
      condition, and defaults and ranges are listed in document order. */
  lemma {:induction false} GatheredMeans(v: Valuation, item: Id -> NodeItem, p: Table, order: seq<Id>, s: string,
                                         t: Tri)
    requires v.Sane() && t > 0
    ensures var m := AddAll(item, p, order, Totals(map[], map[])).SymOf(s);
            && (t <= v.Of(m.directDep) <==> DirectlyAllowed(v, item, p, order, SymItem(s), t))
            && (t <= v.Of(m.revDep) <==> Forced(v, item, p, order, false, s, t))
            && (t <= v.Of(m.weakRevDep) <==> Forced(v, item, p, order, true, s, t))
            && m.defaults == DefaultsOf(item, p, order, SymItem(s)) && m.ranges == RangesOf(item, p, order, s)
            && m.selects == ListedTargets(item, p, order, s, false)
            && m.implies == ListedTargets(item, p, order, s, true)
  {
    var none := Totals(map[], map[]);
    if order == [] {
      assert v.Of(N) == 0;
    } else {
      var n := |order| - 1;
      var x := order[n];
      GatheredMeans(v, item, p, order[..n], s, t);
      AllowedLast(v, item, p, order, SymItem(s), t);
      ForcedLast(v, item, p, order, false, s, t);
      ForcedLast(v, item, p, order, true, s, t);
      if x in p {
        var before := AddAll(item, p, order[..n], none);
        AddNodeMeans(v, item(x), p[x], before, s, t);
        var m := AddNode(item(x), p[x], before).SymOf(s);
        assert Reverse(m, false) == m.revDep && Reverse(m, true) == m.weakRevDep;
      }
      hide Forced, DirectlyAllowed, Valuation.Of, AddNode, Reached;
    }
  }

  /** The same for choices. */
  lemma {:induction false} GatheredChoice(v: Valuation, item: Id -> NodeItem, p: Table, order: seq<Id>, c: nat, t: Tri)
    requires v.Sane() && t > 0
    ensures var m := AddAll(item, p, order, Totals(map[], map[])).ChoiceOf(c);
            && (t <= v.Of(m.directDep) <==> DirectlyAllowed(v, item, p, order, ChoiceItem(c), t))
            && m.defaults == DefaultsOf(item, p, order, ChoiceItem(c))
  {
    if order == [] {
      assert v.Of(N) == 0;
    } else {
      var n := |order| - 1;
      var x := order[n];
      GatheredChoice(v, item, p, order[..n], c, t);
      AllowedLast(v, item, p, order, ChoiceItem(c), t);
      if x in p {
        MakeMeans(v, AddAll(item, p, order[..n], Totals(map[], map[])).ChoiceOf(c).directDep, p[x].dep);
      }
      hide DirectlyAllowed, Valuation.Of, AddReverse, WithNode;
    }
  }

  lemma AllowedLast(v: Valuation, item: Id -> NodeItem, p: Table, order: seq<Id>, i: NodeItem, t: Tri)
    requires order != []
    ensures var n := |order| - 1;
            DirectlyAllowed(v, item, p, order, i, t) <==>
            DirectlyAllowed(v, item, p, order[..n], i, t) ||
            (order[n] in p && item(order[n]) == i && t <= v.Of(p[order[n]].dep))
  {}

  lemma ForcedLast(v: Valuation, item: Id -> NodeItem, p: Table, order: seq<Id>, weak: bool, s: string, t: Tri)
    requires order != []
    ensures var n := |order| - 1;
            Forced(v, item, p, order, weak, s, t) <==>
            Forced(v, item, p, order[..n], weak, s, t) ||
            (order[n] in p && item(order[n]).SymItem? &&
             Reached(v, item(order[n]).name, TargetsOf(p[order[n]], weak), s, t))
  {}
}
