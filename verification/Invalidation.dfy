/** Justification is local: it survives growth of the cache, and it survives invalidation as long
    as nothing still cached has an invalidated input. */
module KconfigInvalidation {
  import opened Basics
  import opened KconfigModel
  import opened KconfigValues
  import opened KconfigCaches

  /** Everything cached for `i` in `k` is cached alike in `k'`, and the mode chosen by the user (part
      of what a choice shows to others) is the same. */
  ghost predicate Keeps(u: User, k: Cache, u': User, k': Cache, i: Item) {
    && (i in k.vis ==> i in k'.vis && k'.vis[i] == k.vis[i])
    && (i.Sym? ==>
          && (i.name in k.tri ==> i.name in k'.tri && k'.tri[i.name] == k.tri[i.name])
          && (i.name in k.str ==> i.name in k'.str && k'.str[i.name] == k.str[i.name]))
    && (i.Cho? ==>
          && (i.id in k.sel ==> i.id in k'.sel && k'.sel[i.id] == k.sel[i.id])
          && Get(u.mode, i.id) == Get(u'.mode, i.id))
  }

  ghost predicate KeepsAll(u: User, k: Cache, u': User, k': Cache, items: set<Item>) {
    && Keeps(u, k, u', k', Sym(MODULES))
    && forall i :: i in items ==> Keeps(u, k, u', k', i)
  }

  // Each Carry lemma: what could be computed before can still be computed, with the same result.

  lemma CarryMode(cfg: Config, u: User, k: Cache, u': User, k': Cache, c: nat)
    requires Keeps(u, k, u', k', Sym(MODULES)) && Keeps(u, k, u', k', Cho(c))
    ensures TryMode(cfg, u, k, c).Some? ==> TryMode(cfg, u', k', c) == TryMode(cfg, u, k, c)
  {}

  lemma CarryAtom(cfg: Config, u: User, k: Cache, u': User, k': Cache, a: Atom)
    requires KeepsAll(u, k, u', k', AtomItems(a))
    ensures TryAtomTri(cfg, u, k, a).Some? ==> TryAtomTri(cfg, u', k', a) == TryAtomTri(cfg, u, k, a)
    ensures TryAtomStr(cfg, u, k, a).Some? ==> TryAtomStr(cfg, u', k', a) == TryAtomStr(cfg, u, k, a)
    ensures TryAtomNum(cfg, u, k, a).Some? ==> TryAtomNum(cfg, u', k', a) == TryAtomNum(cfg, u, k, a)
  {
    if a.Ref? {
      assert Keeps(u, k, u', k', a.item);
      if a.item.Cho? { CarryMode(cfg, u, k, u', k', a.item.id); }
    }
  }

  lemma CarryCompare(cfg: Config, u: User, k: Cache, u': User, k': Cache, x: Atom, y: Atom)
    requires KeepsAll(u, k, u', k', AtomItems(x) + AtomItems(y))
    ensures TryCompare(cfg, u, k, x, y).Some? ==> TryCompare(cfg, u', k', x, y) == TryCompare(cfg, u, k, x, y)
  {
    hide TryAtomNum, TryAtomTri, TryAtomStr, KindOf, StrCmp, Keeps;
    CarryAtom(cfg, u, k, u', k', x);
    CarryAtom(cfg, u, k, u', k', y);
  }

  lemma {:induction false} CarryEval(cfg: Config, u: User, k: Cache, u': User, k': Cache, e: Expr)
    requires KeepsAll(u, k, u', k', Items(e))
    ensures TryEval(cfg, u, k, e).Some? ==> TryEval(cfg, u', k', e) == TryEval(cfg, u, k, e)
  {
    hide TryAtomTri, TryCompare, Keeps, Holds;
    match e
    case Leaf(a) => CarryAtom(cfg, u, k, u', k', a);
    case And(l, r) => CarryEval(cfg, u, k, u', k', l); CarryEval(cfg, u, k, u', k', r);
    case Or(l, r) => CarryEval(cfg, u, k, u', k', l); CarryEval(cfg, u, k, u', k', r);
    case Not(f) => CarryEval(cfg, u, k, u', k', f);
    case Rel(_, x, y) => CarryCompare(cfg, u, k, u', k', x, y);
  }

  /** The listed expressions all carry over. */
  lemma CarryAny(cfg: Config, u: User, k: Cache, u': User, k': Cache, es: seq<Expr>, e: Expr)
    requires e in es && KeepsAll(u, k, u', k', ItemsOfAll(es))
    ensures TryEval(cfg, u, k, e).Some? ==> TryEval(cfg, u', k', e) == TryEval(cfg, u, k, e)
    ensures e.Leaf? && TryAtomStr(cfg, u, k, e.a).Some? ==> TryAtomStr(cfg, u', k', e.a) == TryAtomStr(cfg, u, k, e.a)
  {
    assert Items(e) <= ItemsOfAll(es);
    CarryEval(cfg, u, k, u', k', e);
    if e.Leaf? { CarryAtom(cfg, u, k, u', k', e.a); }
  }

  /** The same for the reverse, weak reverse and direct dependencies of a symbol. */
  lemma CarryDeps(cfg: Config, u: User, k: Cache, u': User, k': Cache, s: string)
    requires s in cfg.syms && KeepsAll(u, k, u', k', Inputs(cfg, Sym(s)))
    ensures var d := cfg.syms[s];
            forall e :: e in {d.revDep, d.weakRevDep, d.directDep} && TryEval(cfg, u, k, e).Some? ==>
              TryEval(cfg, u', k', e) == TryEval(cfg, u, k, e)
  {
    var d := cfg.syms[s];
    DepsListed(d);
    CarryAny(cfg, u, k, u', k', SymExprs(d), d.revDep);
    CarryAny(cfg, u, k, u', k', SymExprs(d), d.weakRevDep);
    CarryAny(cfg, u, k, u', k', SymExprs(d), d.directDep);
  }

  lemma {:induction false} CarryMaxEval(cfg: Config, u: User, k: Cache, u': User, k': Cache, es: seq<Expr>,
                                        all: seq<Expr>)
    requires KeepsAll(u, k, u', k', ItemsOfAll(all)) && forall e :: e in es ==> e in all
    ensures TryMaxEval(cfg, u, k, es).Some? ==> TryMaxEval(cfg, u', k', es) == TryMaxEval(cfg, u, k, es)
  {
    if es != [] {
      CarryMaxEval(cfg, u, k, u', k', es[..|es| - 1], all);
      CarryAny(cfg, u, k, u', k', all, es[|es| - 1]);
    }
  }

  lemma CarrySymVis(cfg: Config, u: User, k: Cache, u': User, k': Cache, s: string)
    requires WellFormed(cfg) && s in cfg.syms && KeepsAll(u, k, u', k', Inputs(cfg, Sym(s)))
    ensures TrySymVis(cfg, u, k, s).Some? ==> TrySymVis(cfg, u', k', s) == TrySymVis(cfg, u, k, s)
  {
    hide TryMode, TryMaxEval, TryActsAsBool, SymExprs, WellFormed, Keeps, Inputs;
    var d := cfg.syms[s];
    CarryPrompts(cfg, u, k, u', k', s);
    CarryActsAsBool(cfg, u, k, u', k', s);
    if d.choice.Some? {
      MemberDepends(cfg, s);
      CarryMode(cfg, u, k, u', k', d.choice.value);
    }
  }

  lemma CarryPrompts(cfg: Config, u: User, k: Cache, u': User, k': Cache, s: string)
    requires s in cfg.syms && KeepsAll(u, k, u', k', Inputs(cfg, Sym(s)))
    ensures var es := cfg.syms[s].prompts;
            TryMaxEval(cfg, u, k, es).Some? ==> TryMaxEval(cfg, u', k', es) == TryMaxEval(cfg, u, k, es)
  {
    var d := cfg.syms[s];
    CarryMaxEval(cfg, u, k, u', k', d.prompts, SymExprs(d));
  }

  lemma MemberDepends(cfg: Config, s: string)
    requires WellFormed(cfg) && s in cfg.syms && cfg.syms[s].choice.Some?
    ensures Cho(cfg.syms[s].choice.value) in Inputs(cfg, Sym(s))
  {}

  lemma CarryVis(cfg: Config, u: User, k: Cache, u': User, k': Cache, i: Item)
    requires WellFormed(cfg) && KeepsAll(u, k, u', k', Inputs(cfg, i))
    ensures TryVis(cfg, u, k, i).Some? ==> TryVis(cfg, u', k', i) == TryVis(cfg, u, k, i)
  {
    match i
    case Sym(s) =>
      if s in cfg.syms {
        CarrySymVis(cfg, u, k, u', k', s);
      }
    case Cho(c) =>
      if c in cfg.choices {
        var d := cfg.choices[c];
        assert KeepsAll(u, k, u', k', ItemsOfAll(ChoiceExprs(d)));
        CarryMaxEval(cfg, u, k, u', k', d.prompts, ChoiceExprs(d));
      }
  }

  lemma {:induction false} CarryFirstVisible(u: User, k: Cache, u': User, k': Cache, syms: seq<string>)
    requires forall m :: m in syms ==> Keeps(u, k, u', k', Sym(m))
    ensures TryFirstVisible(k, syms).Some? ==> TryFirstVisible(k', syms) == TryFirstVisible(k, syms)
  {
    if syms != [] {
      assert Keeps(u, k, u', k', Sym(syms[0]));
      CarryFirstVisible(u, k, u', k', syms[1..]);
    }
  }

  lemma {:induction false} CarryDefaultFrom(cfg: Config, u: User, k: Cache, u': User, k': Cache, d: ChoiceDef,
                                            ds: seq<ChoiceDefault>)
    requires KeepsAll(u, k, u', k', ItemsOfAll(ChoiceExprs(d)))
    requires forall m :: m in d.syms ==> Keeps(u, k, u', k', Sym(m))
    requires forall x :: x in ds ==> x in d.defaults && x.sym in d.syms
    ensures TryDefaultFrom(cfg, u, k, ds, d.syms).Some? ==>
              TryDefaultFrom(cfg, u', k', ds, d.syms) == TryDefaultFrom(cfg, u, k, ds, d.syms)
  {
    if ds == [] {
      CarryFirstVisible(u, k, u', k', d.syms);
    } else {
      assert ds[0] in ds;
      ChoiceCondListed(d, ds[0]);
      CarryAny(cfg, u, k, u', k', ChoiceExprs(d), ds[0].cond);
      assert Keeps(u, k, u', k', Sym(ds[0].sym));
      CarryDefaultFrom(cfg, u, k, u', k', d, ds[1..]);
    }
  }

  lemma CarrySelection(cfg: Config, u: User, k: Cache, u': User, k': Cache, c: nat)
    requires WellFormed(cfg) && KeepsAll(u, k, u', k', Inputs(cfg, Cho(c))) && Keeps(u, k, u', k', Cho(c))
    requires Get(u.sel, c) == Get(u'.sel, c)
    ensures TrySelection(cfg, u, k, c).Some? ==> TrySelection(cfg, u', k', c) == TrySelection(cfg, u, k, c)
  {
    hide WellFormed, Inputs, TryMode, TryDefaultFrom, ChoiceExprs;
    if c in cfg.choices {
      var d := cfg.choices[c];
      ChoiceInputs(cfg, c);
      CarryMode(cfg, u, k, u', k', c);
      CarryDefaultFrom(cfg, u, k, u', k', d, d.defaults);
    }
  }

  lemma ChoiceInputs(cfg: Config, c: nat)
    requires WellFormed(cfg) && c in cfg.choices
    ensures forall m :: m in cfg.choices[c].syms ==> Sym(m) in Inputs(cfg, Cho(c))
    ensures ItemsOfAll(ChoiceExprs(cfg.choices[c])) <= Inputs(cfg, Cho(c))
    ensures forall x :: x in cfg.choices[c].defaults ==> x.sym in cfg.choices[c].syms
  {
    assert ChoiceOk(cfg, c);
  }

  lemma {:induction false} CarryPick(cfg: Config, u: User, k: Cache, u': User, k': Cache, d: SymDef, ds: seq<Default>)
    requires KeepsAll(u, k, u', k', ItemsOfAll(SymExprs(d))) && forall x :: x in ds ==> x in d.defaults
    ensures TryPick(cfg, u, k, ds).Some? ==> TryPick(cfg, u', k', ds) == TryPick(cfg, u, k, ds)
    ensures TryPickTri(cfg, u, k, ds).Some? ==> TryPickTri(cfg, u', k', ds) == TryPickTri(cfg, u, k, ds)
    ensures TryPickStr(cfg, u, k, ds).Some? ==> TryPickStr(cfg, u', k', ds) == TryPickStr(cfg, u, k, ds)
  {
    if ds != [] {
      assert ds[0] in ds;
      DefaultListed(d, ds[0]);
      CarryAny(cfg, u, k, u', k', SymExprs(d), ds[0].cond);
      CarryAny(cfg, u, k, u', k', SymExprs(d), ds[0].value);
      CarryPick(cfg, u, k, u', k', d, ds[1..]);
      hide TryEval, TryAtomStr;
    }
  }

  lemma {:induction false} CarryRange(cfg: Config, u: User, k: Cache, u': User, k': Cache, d: SymDef, rs: seq<Range>,
                                      base: nat)
    requires KeepsAll(u, k, u', k', ItemsOfAll(SymExprs(d))) && forall x :: x in rs ==> x in d.ranges
    ensures TryRange(cfg, u, k, rs, base).Some? ==> TryRange(cfg, u', k', rs, base) == TryRange(cfg, u, k, rs, base)
  {
    if rs != [] {
      assert rs[0] in rs;
      RangeListed(d, rs[0]);
      CarryAny(cfg, u, k, u', k', SymExprs(d), rs[0].cond);
      CarryAny(cfg, u, k, u', k', SymExprs(d), Leaf(rs[0].low));
      CarryAny(cfg, u, k, u', k', SymExprs(d), Leaf(rs[0].high));
      CarryRange(cfg, u, k, u', k', d, rs[1..], base);
    }
  }

  lemma CarryActsAsBool(cfg: Config, u: User, k: Cache, u': User, k': Cache, s: string)
    requires WellFormed(cfg) && s in cfg.syms && KeepsAll(u, k, u', k', Inputs(cfg, Sym(s)))
    ensures var d := cfg.syms[s];
            TryActsAsBool(cfg, u, k, d).Some? ==> TryActsAsBool(cfg, u', k', d) == TryActsAsBool(cfg, u, k, d)
  {
    assert SymOk(cfg, s);
    var d := cfg.syms[s];
    if d.choice.Some? { CarryMode(cfg, u, k, u', k', d.choice.value); }
    hide TryMode;
  }

  /** The user's value for `s` is the same, or `s` is invisible and the value does not count. */
  ghost predicate UserKept(u: User, k: Cache, u': User, s: string) {
    Get(u.val, s) == Get(u'.val, s) || (Sym(s) in k.vis ==> k.vis[Sym(s)] == 0)
  }

  lemma CarryWeigh(cfg: Config, u: User, k: Cache, u': User, k': Cache, s: string, vis: Tri)
    requires s in cfg.syms && KeepsAll(u, k, u', k', Inputs(cfg, Sym(s)))
    requires u.TriOf(s) == u'.TriOf(s) || vis == 0
    ensures var d := cfg.syms[s];
            TryWeigh(cfg, u, k, s, d, vis).Some? ==>
              TryWeigh(cfg, u', k', s, d, vis) == TryWeigh(cfg, u, k, s, d, vis)
  {
    hide TryEval, TryPick, TryPickTri, TryPickStr, SymExprs, KeepsAll;
    CarryDeps(cfg, u, k, u', k', s);
    CarryPick(cfg, u, k, u', k', cfg.syms[s], cfg.syms[s].defaults);
  }

  lemma CarryPlainTri(cfg: Config, u: User, k: Cache, u': User, k': Cache, s: string, vis: Tri)
    requires WellFormed(cfg) && s in cfg.syms && KeepsAll(u, k, u', k', Inputs(cfg, Sym(s)))
    requires u.TriOf(s) == u'.TriOf(s) || vis == 0
    ensures var d := cfg.syms[s];
            TryPlainTri(cfg, u, k, s, d, vis).Some? ==>
              TryPlainTri(cfg, u', k', s, d, vis) == TryPlainTri(cfg, u, k, s, d, vis)
  {
    hide TryEval, TryWeigh, TryActsAsBool, Inputs, KeepsAll, WellFormed;
    CarryDeps(cfg, u, k, u', k', s);
    CarryWeigh(cfg, u, k, u', k', s, vis);
    CarryActsAsBool(cfg, u, k, u', k', s);
  }

  lemma CarryTri(cfg: Config, u: User, k: Cache, u': User, k': Cache, s: string)
    requires WellFormed(cfg) && KeepsAll(u, k, u', k', Inputs(cfg, Sym(s))) && Keeps(u, k, u', k', Sym(s))
    requires UserKept(u, k, u', s)
    ensures TryTri(cfg, u, k, s).Some? ==> TryTri(cfg, u', k', s) == TryTri(cfg, u, k, s)
  {
    if s in cfg.syms && cfg.syms[s].kind.Logical() && Sym(s) in k.vis {
      var d := cfg.syms[s];
      assert Get(u.val, s) == Get(u'.val, s) ==> u.TriOf(s) == u'.TriOf(s);
      assert SymOk(cfg, s);
      if d.choice.Some? {
        assert Keeps(u, k, u', k', Cho(d.choice.value));
      } else {
        CarryPlainTri(cfg, u, k, u', k', s, k.vis[Sym(s)]);
      }
    }
  }

  lemma CarryStr(cfg: Config, u: User, k: Cache, u': User, k': Cache, s: string)
    requires WellFormed(cfg) && KeepsAll(u, k, u', k', Inputs(cfg, Sym(s))) && Keeps(u, k, u', k', Sym(s))
    requires UserKept(u, k, u', s)
    ensures TryStr(cfg, u, k, s).Some? ==> TryStr(cfg, u', k', s) == TryStr(cfg, u, k, s)
  {
    if s in cfg.syms && Sym(s) in k.vis {
      var d := cfg.syms[s];
      assert Get(u.val, s) == Get(u'.val, s) ==> u.TextOf(s) == u'.TextOf(s);
      CarryPick(cfg, u, k, u', k', d, d.defaults);
      CarryRange(cfg, u, k, u', k', d, d.ranges, d.kind.Base());
      hide TryPickStr, TryRange, Inputs, WellFormed, KeepsAll, Inside, NumOrZero, CombineNumeric, CombineText, TriText;
    }
  }

  lemma CarryAssignable(cfg: Config, u: User, k: Cache, u': User, k': Cache, i: Item)
    requires WellFormed(cfg) && KeepsAll(u, k, u', k', Inputs(cfg, i)) && Keeps(u, k, u', k', i)
    ensures TryAssignable(cfg, u, k, i).Some? ==> TryAssignable(cfg, u', k', i) == TryAssignable(cfg, u, k, i)
  {
    hide TryEval, TryActsAsBool, Inputs, WellFormed, AssignableFrom, ChoiceAssignableFrom;
    if i.Sym? && i.name in cfg.syms {
      CarryDeps(cfg, u, k, u', k', i.name);
      CarryActsAsBool(cfg, u, k, u', k', i.name);
    }
  }

  // Growth

  ghost predicate Grows(k: Cache, k': Cache) {
    && (forall i :: i in k.vis ==> i in k'.vis && k'.vis[i] == k.vis[i])
    && (forall s :: s in k.tri ==> s in k'.tri && k'.tri[s] == k.tri[s])
    && (forall s :: s in k.str ==> s in k'.str && k'.str[s] == k.str[s])
    && (forall c :: c in k.sel ==> c in k'.sel && k'.sel[c] == k.sel[c])
    && (forall i :: i in k.asg ==> i in k'.asg && k'.asg[i] == k.asg[i])
  }

  /** Adding justified entries keeps the old ones justified. */
  lemma GrowthKeeps(cfg: Config, u: User, k: Cache, k': Cache)
    requires WellFormed(cfg) && Justified(cfg, u, k) && Grows(k, k')
    requires forall i :: i in k'.vis && i !in k.vis ==> TryVis(cfg, u, k', i) == Some(k'.vis[i])
    requires forall s :: s in k'.tri && s !in k.tri ==> TryTri(cfg, u, k', s) == Some(k'.tri[s])
    requires forall s :: s in k'.str && s !in k.str ==> TryStr(cfg, u, k', s) == Some(k'.str[s])
    requires forall c :: c in k'.sel && c !in k.sel ==> TrySelection(cfg, u, k', c) == Some(k'.sel[c])
    requires forall i :: i in k'.asg && i !in k.asg ==> TryAssignable(cfg, u, k', i) == Some(k'.asg[i])
    ensures Justified(cfg, u, k')
  {
    hide TryVis, TryTri, TryStr, TrySelection, TryAssignable, WellFormed;
    forall i ensures Keeps(u, k, u, k', i) {}
    forall i | i in k.vis ensures TryVis(cfg, u, k', i) == Some(k.vis[i]) { CarryVis(cfg, u, k, u, k', i); }
    forall s | s in k.tri ensures TryTri(cfg, u, k', s) == Some(k.tri[s]) { CarryTri(cfg, u, k, u, k', s); }
    forall s | s in k.str ensures TryStr(cfg, u, k', s) == Some(k.str[s]) { CarryStr(cfg, u, k, u, k', s); }
    forall c | c in k.sel ensures TrySelection(cfg, u, k', c) == Some(k.sel[c]) { CarrySelection(cfg, u, k, u, k', c); }
    forall i | i in k.asg ensures TryAssignable(cfg, u, k', i) == Some(k.asg[i]) {
      CarryAssignable(cfg, u, k, u, k', i);
    }
  }

  // Invalidation

  /** `k` with everything cached for the items in `gone` cleared. */
  function Without(k: Cache, gone: set<Item>): Cache {
    Cache(k.vis - gone,
          map s | s in k.tri && Sym(s) !in gone :: k.tri[s],
          map s | s in k.str && Sym(s) !in gone :: k.str[s],
          k.asg - gone,
          map c | c in k.sel && Cho(c) !in gone :: k.sel[c])
  }

  lemma WithoutTwice(k: Cache, a: set<Item>, b: set<Item>)
    ensures Without(Without(k, a), b) == Without(k, a + b)
  {}

  /** Nothing that is still flagged as cached has an input in `gone`. */
  ghost predicate Cut(cfg: Config, vis: map<Item, Tri>, gone: set<Item>) {
    && (forall d, i :: d in gone && d in Inputs(cfg, i) ==> i !in vis)
    && (Sym(MODULES) in gone ==> Defined(cfg) <= gone)
  }

  /** The user states differ only where it does not matter to what is still cached. */
  ghost predicate UserMoved(u: User, k: Cache, u': User, gone: set<Item>) {
    && (forall s :: Get(u.val, s) == Get(u'.val, s) || Sym(s) in gone || UserKept(u, k, u', s))
    && (forall c :: Cho(c) in gone || (Get(u.mode, c) == Get(u'.mode, c) && Get(u.sel, c) == Get(u'.sel, c)))
  }

  lemma CutKeeps(cfg: Config, u: User, k: Cache, u': User, gone: set<Item>, i: Item)
    requires WellFormed(cfg) && i in Defined(cfg)
    requires i in k.vis && i !in gone && Cut(cfg, Without(k, gone).vis, gone) && UserMoved(u, k, u', gone)
    ensures KeepsAll(u, k, u', Without(k, gone), Inputs(cfg, i)) && Keeps(u, k, u', Without(k, gone), i)
  {
    forall d | d !in gone ensures Keeps(u, k, u', Without(k, gone), d) {}
  }

  /** Invalidation is safe: what remains cached is justified under the new user state. */
  lemma InvalidationKeeps(cfg: Config, u: User, k: Cache, u': User, gone: set<Item>)
    requires WellFormed(cfg) && Justified(cfg, u, k)
    requires Cut(cfg, Without(k, gone).vis, gone) && UserMoved(u, k, u', gone)
    ensures Justified(cfg, u', Without(k, gone))
  {
    InvalidationKeepsChoices(cfg, u, k, u', gone);
    InvalidationKeepsAssignable(cfg, u, k, u', gone);
    InvalidationKeepsValues(cfg, u, k, u', gone);
    hide TryVis, TryTri, TryStr, TrySelection, TryAssignable, WellFormed, Cut, UserMoved, Without;
  }

  lemma OneVisibilityKept(cfg: Config, u: User, k: Cache, u': User, gone: set<Item>, i: Item)
    requires WellFormed(cfg) && Justified(cfg, u, k)
    requires Cut(cfg, Without(k, gone).vis, gone) && UserMoved(u, k, u', gone)
    requires i in Without(k, gone).vis
    ensures TryVis(cfg, u', Without(k, gone), i) == Some(k.vis[i])
  {
    if i in Defined(cfg) {
      hide WellFormed, TryVis, Cut, UserMoved, Defined, KeepsAll, Keeps;
      CutKeeps(cfg, u, k, u', gone, i);
      CarryVis(cfg, u, k, u', Without(k, gone), i);
    }
  }

  lemma OneSelectionKept(cfg: Config, u: User, k: Cache, u': User, gone: set<Item>, c: nat)
    requires WellFormed(cfg) && Justified(cfg, u, k)
    requires Cut(cfg, Without(k, gone).vis, gone) && UserMoved(u, k, u', gone)
    requires c in Without(k, gone).sel
    ensures TrySelection(cfg, u', Without(k, gone), c) == Some(k.sel[c])
  {
    assert TrySelection(cfg, u, k, c) == Some(k.sel[c]);
    if c in cfg.choices {
      SelectionSeesItself(cfg, u, k, c);
      hide WellFormed, TrySelection, Justified, Cut, UserMoved, KeepsAll, Keeps;
      CutKeeps(cfg, u, k, u', gone, Cho(c));
      CarrySelection(cfg, u, k, u', Without(k, gone), c);
    }
  }

  lemma SelectionSeesItself(cfg: Config, u: User, k: Cache, c: nat)
    requires c in cfg.choices && TrySelection(cfg, u, k, c).Some?
    ensures Cho(c) in k.vis && Cho(c) in Defined(cfg)
  {}

  lemma InvalidationKeepsChoices(cfg: Config, u: User, k: Cache, u': User, gone: set<Item>)
    requires WellFormed(cfg) && Justified(cfg, u, k)
    requires Cut(cfg, Without(k, gone).vis, gone) && UserMoved(u, k, u', gone)
    ensures var k' := Without(k, gone);
            && (forall i :: i in k'.vis ==> TryVis(cfg, u', k', i) == Some(k'.vis[i]))
            && (forall c :: c in k'.sel ==> TrySelection(cfg, u', k', c) == Some(k'.sel[c]))
  {
    hide WellFormed, TryVis, TrySelection, Justified, Cut, UserMoved;
    var k' := Without(k, gone);
    forall i | i in k'.vis ensures TryVis(cfg, u', k', i) == Some(k'.vis[i]) {
      OneVisibilityKept(cfg, u, k, u', gone, i);
    }
    forall c | c in k'.sel ensures TrySelection(cfg, u', k', c) == Some(k'.sel[c]) {
      OneSelectionKept(cfg, u, k, u', gone, c);
    }
  }

  lemma InvalidationKeepsAssignable(cfg: Config, u: User, k: Cache, u': User, gone: set<Item>)
    requires WellFormed(cfg) && Justified(cfg, u, k)
    requires Cut(cfg, Without(k, gone).vis, gone) && UserMoved(u, k, u', gone)
    ensures var k' := Without(k, gone);
            forall i :: i in k'.asg ==> TryAssignable(cfg, u', k', i) == Some(k'.asg[i])
  {
    var k' := Without(k, gone);
    forall i | i in k'.asg ensures TryAssignable(cfg, u', k', i) == Some(k'.asg[i]) {
      assert TryAssignable(cfg, u, k, i) == Some(k.asg[i]);
      if i in Defined(cfg) && i in k.vis {
        CutKeeps(cfg, u, k, u', gone, i);
        CarryAssignable(cfg, u, k, u', k', i);
      } else {
        ConstantAssignable(cfg, u, k, u', k', i);
      }
    }
    hide TryAssignable, Justified, WellFormed, Cut, UserMoved, Defined;
  }

  /** What is assignable to an item without a cached visibility was found without reading anything. */
  lemma ConstantAssignable(cfg: Config, u: User, k: Cache, u': User, k': Cache, i: Item)
    requires TryAssignable(cfg, u, k, i).Some? && (i !in Defined(cfg) || i !in k.vis)
    ensures TryAssignable(cfg, u', k', i) == TryAssignable(cfg, u, k, i)
  {}

  lemma InvalidationKeepsValues(cfg: Config, u: User, k: Cache, u': User, gone: set<Item>)
    requires WellFormed(cfg) && Justified(cfg, u, k)
    requires Cut(cfg, Without(k, gone).vis, gone) && UserMoved(u, k, u', gone)
    ensures var k' := Without(k, gone);
            && (forall s :: s in k'.tri ==> TryTri(cfg, u', k', s) == Some(k'.tri[s]))
            && (forall s :: s in k'.str ==> TryStr(cfg, u', k', s) == Some(k'.str[s]))
  {
    var k' := Without(k, gone);
    forall s | s in k'.tri ensures TryTri(cfg, u', k', s) == Some(k'.tri[s]) {
      if s in cfg.syms && cfg.syms[s].kind.Logical() {
        CutKeeps(cfg, u, k, u', gone, Sym(s));
        CarryTri(cfg, u, k, u', k', s);
      }
    }
    forall s | s in k'.str ensures TryStr(cfg, u', k', s) == Some(k'.str[s]) {
      if s in cfg.syms && cfg.syms[s].kind != Unknown {
        if cfg.syms[s].kind.Logical() {
          assert TryTri(cfg, u, k, s) == Some(k.tri[s]);
        }
        CutKeeps(cfg, u, k, u', gone, Sym(s));
        CarryStr(cfg, u, k, u', k', s);
      }
    }
  }
}
