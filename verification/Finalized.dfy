/** What finalization guarantees for the configuration that the value engine works on. */
module KconfigFinalized {
  import opened Basics
  import opened KconfigModel
  import opened KconfigValues
  import opened KconfigMenuTree
  import opened KconfigPropagation
  import opened KconfigPropagationLaws
  import Laws = KconfigLaws
  import Files = KconfigFiles

  lemma {:induction false} PathTo(f: Forest, x: Id) returns (path: seq<Id>)
    requires Times(f, x) > 0
    ensures IsPath(f, path) && path[|path| - 1] == x
  {
    if f.id == x {
      path := [x];
    } else if Times(f.list, x) > 0 {
      var rest := PathTo(f.list, x);
      path := [f.id] + rest;
      assert path[1..] == rest;
    } else {
      path := PathTo(f.next, x);
    }
  }

  /** Under no circumstances is a symbol more visible than its direct dependencies allow. */
  lemma PromptWithinDeps(v: Valuation, item: Id -> NodeItem, w: Table, p: Table, f: Forest, base: Expr,
                         visibleIf: Expr, x: Id)
    requires v.Sane() && Done(item, w, p, f, base, visibleIf) && x in Order(item, f) && item(x).SymItem?
    ensures x in p && (p[x].prompt.Some? ==>
              var t := AddAll(item, p, Order(item, f), Totals(map[], map[]));
              v.Of(p[x].prompt.value) <= v.Of(t.SymOf(item(x).name).directDep))
  {
    OrderIn(item, f, x);
    var path := PathTo(f, x);
    hide IsPath, Done, Order, AddAll, Valuation.Of, MenusAllow, WrittenFor;
    PromptMeans(v, item, w, p, f, base, visibleIf, path, 0);
    if p[x].prompt.Some? {
      var t := v.Of(p[x].prompt.value);
      PromptMeans(v, item, w, p, f, base, visibleIf, path, t);
      if t > 0 {
        GatheredMeans(v, item, p, Order(item, f), item(x).name, t);
        assert Listed(Order(item, f), p, x);
      }
    }
  }

  // Inside choices

  lemma MakeAndUnder(c: nat, a: Expr, b: Expr)
    requires Laws.UnderChoice(c, a) || Laws.UnderChoice(c, b)
    ensures Laws.UnderChoice(c, MakeAnd(a, b))
  {}

  /** Dependencies and prompts below a choice, up to the next choice, contain it as a condition. */
  lemma {:induction false} InsideChoice(item: Id -> NodeItem, w: Table, p: Table, f: Forest, base: Expr,
                                        visibleIf: Expr, path: seq<Id>, c: nat)
    requires Done(item, w, p, f, base, visibleIf) && IsPath(f, path)
    requires var j := LastChoice(item, path); if j >= 0 then item(path[j]).choice == c else Laws.UnderChoice(c, base)
    ensures var x := path[|path| - 1];
            && x in p && Laws.UnderChoice(c, p[x].dep)
            && (item(x).Carries() && p[x].prompt.Some? ==> Laws.UnderChoice(c, p[x].prompt.value))
    decreases f
  {
    hide Laws.UnderChoice, MakeAnd;
    if f.id == path[0] && (|path| == 1 || IsPath(f.list, path[1..])) {
      if |path| == 1 {
        var dep := MakeAnd(w[f.id].dep, base);
        MakeAndUnder(c, w[f.id].dep, base);
        MakeAndUnder(c, visibleIf, dep);
        if w[f.id].prompt.Some? { MakeAndUnder(c, w[f.id].prompt.value, MakeAnd(visibleIf, dep)); }
      } else {
        var base' := BaseOf(item(f.id), p[f.id]);
        if LastChoice(item, path[1..]) < 0 {
          UnderItself(c);
          if !item(f.id).ChoiceItem? { MakeAndUnder(c, w[f.id].dep, base); }
        }
        InsideChoice(item, w, p, f.list, base', VisibleIf(item(f.id), w[f.id], visibleIf), path[1..], c);
      }
    } else {
      InsideChoice(item, w, p, f.next, base, visibleIf, path, c);
    }
  }

  lemma UnderItself(c: nat)
    ensures Laws.UnderChoice(c, Leaf(Ref(Cho(c))))
  {}

  // The configuration

  /** The prompts and direct dependencies of the symbols of `cfg` are those of the finalized tree. */
  ghost predicate FromTree(cfg: Config, item: Id -> NodeItem, p: Table, f: Forest) {
    var t := AddAll(item, p, Order(item, f), Totals(map[], map[]));
    forall s :: s in cfg.syms ==>
      && cfg.syms[s].directDep == t.SymOf(s).directDep
      && forall e :: e in cfg.syms[s].prompts ==> HasPrompt(item, p, f, s, e)
  }

  ghost predicate HasPrompt(item: Id -> NodeItem, p: Table, f: Forest, s: string, e: Expr) {
    exists x :: x in Order(item, f) && x in p && item(x) == SymItem(s) && p[x].prompt == Some(e)
  }

  function Current(cfg: Config, u: User): Valuation
    requires WellFormed(cfg)
  {
    Valuation(a => AtomTri(cfg, u, a), (op, x, y) => Holds(op, Compare(cfg, u, x, y)))
  }

  lemma CurrentIsEval(cfg: Config, u: User, e: Expr)
    requires WellFormed(cfg)
    ensures Current(cfg, u).Of(e) == Eval(cfg, u, e) && Current(cfg, u).Sane()
  {}

  lemma {:induction false} SomePrompt(cfg: Config, u: User, es: seq<Expr>, bound: nat) returns (e: Expr)
    requires WellFormed(cfg) && Below(cfg, es, bound) && MaxEval(cfg, u, es, bound) != 0
    ensures e in es && Eval(cfg, u, e) != 0
    decreases |es|
  {
    hide WellFormed, Eval;
    var n := |es| - 1;
    if Eval(cfg, u, es[n]) != 0 {
      e := es[n];
    } else {
      e := SomePrompt(cfg, u, es[..n], bound);
    }
  }

  lemma VisiblePrompt(cfg: Config, u: User, s: string) returns (e: Expr)
    requires WellFormed(cfg) && s in cfg.syms && SymVis(cfg, u, s) != 0
    ensures e in cfg.syms[s].prompts && Eval(cfg, u, e) != 0
  {
    SymFacts(cfg, s);
    ExprsListed(cfg, s);
    hide WellFormed, Mode, ActsAsBool, Eval;
    e := SomePrompt(cfg, u, cfg.syms[s].prompts, 8 * cfg.rank(Sym(s)) + 3);
  }

  /** A visible symbol has direct dependencies that are not n, whatever the user has assigned. */
  lemma VisibleMeansDepends(cfg: Config, u: User, item: Id -> NodeItem, w: Table, p: Table, f: Forest, base: Expr,
                            visibleIf: Expr)
    requires WellFormed(cfg) && Done(item, w, p, f, base, visibleIf) && FromTree(cfg, item, p, f)
    ensures Files.PromptsDepend(cfg, u)
  {
    hide Done, FromTree, AddAll, Order, Valuation.Of, Current;
    forall s | s in cfg.syms && SymVis(cfg, u, s) != 0 ensures Eval(cfg, u, cfg.syms[s].directDep) != 0 {
      VisibleDepends(cfg, u, item, w, p, f, base, visibleIf, s);
    }
  }

  lemma VisibleDepends(cfg: Config, u: User, item: Id -> NodeItem, w: Table, p: Table, f: Forest, base: Expr,
                       visibleIf: Expr, s: string)
    requires WellFormed(cfg) && Done(item, w, p, f, base, visibleIf) && FromTree(cfg, item, p, f)
    requires s in cfg.syms && SymVis(cfg, u, s) != 0
    ensures Eval(cfg, u, cfg.syms[s].directDep) != 0
  {
    hide Done, AddAll, Order, Valuation.Of, Current, WellFormed, SymVis, Eval;
    var e := VisiblePrompt(cfg, u, s);
    assert HasPrompt(item, p, f, s, e);
    var x :| x in Order(item, f) && x in p && item(x) == SymItem(s) && p[x].prompt == Some(e);
    CurrentIsEval(cfg, u, e);
    CurrentIsEval(cfg, u, cfg.syms[s].directDep);
    PromptWithinDeps(Current(cfg, u), item, w, p, f, base, visibleIf, x);
  }

  /** Node `x` is a definition with a prompt of one of the symbols. */
  predicate PromptOf(item: Id -> NodeItem, p: Table, x: Id, syms: seq<string>) {
    item(x).SymItem? && item(x).name in syms && x in p && p[x].prompt.Some?
  }

  /** If all definitions with a prompt of the symbols of a choice are inside it, so are the prompts. */
  lemma ChoicePromptsInside(cfg: Config, item: Id -> NodeItem, w: Table, p: Table, f: Forest, base: Expr,
                            visibleIf: Expr, c: nat)
    requires WellFormed(cfg) && Done(item, w, p, f, base, visibleIf) && FromTree(cfg, item, p, f) && c in cfg.choices
    requires forall path :: IsPath(f, path) && PromptOf(item, p, path[|path| - 1], cfg.choices[c].syms) ==>
               var j := LastChoice(item, path); j >= 0 && item(path[j]).choice == c
    ensures Laws.PromptsInside(cfg, c)
  {
    hide WellFormed, Done, IsPath, LastChoice, Order, AddAll, Laws.UnderChoice;
    forall m, e | m in cfg.choices[c].syms && m in cfg.syms && e in cfg.syms[m].prompts ensures Laws.UnderChoice(c, e) {
      assert HasPrompt(item, p, f, m, e);
      var x :| x in Order(item, f) && x in p && item(x) == SymItem(m) && p[x].prompt == Some(e);
      OrderIn(item, f, x);
      var path := PathTo(f, x);
      InsideChoice(item, w, p, f, base, visibleIf, path, c);
    }
  }
}
