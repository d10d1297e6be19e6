/** From local to global: if no item, looked at by itself with everything else as it was, would
    notice that its own assignments changed, then changing all assignments at once changes
    nothing. The old values form a justified cache for the new assignments. */
module KconfigReassignment {
  import opened Basics
  import opened KconfigModel
  import opened KconfigValues
  import opened KconfigCaches
  import opened KconfigCoherence
  import opened KconfigInvalidation

  /** The cache-free values under `u` of all fields determined before stage `l`. */
  function UpTo(cfg: Config, u: User, l: nat): Cache
    requires WellFormed(cfg)
  {
    Cache(map i | i in Defined(cfg) && VisLevel(cfg, i) < l :: Vis(cfg, u, i),
          map s | s in cfg.syms && TriLevel(cfg, s) < l :: SymTri(cfg, u, s),
          map s | s in cfg.syms && StrLevel(cfg, s) < l :: SymStr(cfg, u, s),
          map[],
          map c | c in cfg.choices && SelLevel(cfg, c) < l :: Selection(cfg, u, c))
  }

  /** No choice determined before stage `l` changes mode when its own assignment does. */
  ghost predicate ModesKept(cfg: Config, u: User, u': User, l: nat)
    requires WellFormed(cfg)
  {
    forall c :: c in cfg.choices && ModeLevel(cfg, c) <= l ==> ModeWith(cfg, u, c, u'.ModeOf(c)) == Mode(cfg, u, c)
  }

  /** No field determined before stage `l` changes when the assignments to its own item do. */
  ghost predicate Unnoticed(cfg: Config, u: User, u': User, l: nat)
    requires WellFormed(cfg)
  {
    && ModesKept(cfg, u, u', l)
    && (forall c :: c in cfg.choices && SelLevel(cfg, c) < l ==>
          SelectionWith(cfg, u, c, u'.SelectionOf(c)) == Selection(cfg, u, c))
    && (forall s :: s in cfg.syms && TriLevel(cfg, s) < l ==> SymTriWith(cfg, u, s, u'.TriOf(s)) == SymTri(cfg, u, s))
    && (forall s :: s in cfg.syms && StrLevel(cfg, s) < l ==> SymStrWith(cfg, u, s, u'.TextOf(s)) == SymStr(cfg, u, s))
  }

  // Each Total lemma: from the values before the stage a field belongs to, the field can be
  // computed, and only the item's own assignment is taken from u'.

  lemma ModulesTotal(cfg: Config, u: User, l: nat)
    requires WellFormed(cfg) && TriLevel(cfg, MODULES) < l
    ensures TryModules(cfg, UpTo(cfg, u, l)) == Some(Modules(cfg, u))
  {
    assert SymTri(cfg, u, MODULES) == SymTriWith(cfg, u, MODULES, u.TriOf(MODULES));
    hide WellFormed, SymTriWith, SymStr, Selection, Vis;
  }

  lemma ModeTotal(cfg: Config, u: User, u': User, l: nat, c: nat)
    requires WellFormed(cfg) && ModeLevel(cfg, c) <= l
    ensures TryMode(cfg, u', UpTo(cfg, u, l), c) == Some(ModeWith(cfg, u, c, u'.ModeOf(c)))
  {
    hide WellFormed, SymTri, SymStr, Selection, ChoiceVis, SymVis, Modules, TryModules;
    if c in cfg.choices {
      ChoiceFacts(cfg, c);
      assert Cho(c) in UpTo(cfg, u, l).vis && UpTo(cfg, u, l).vis[Cho(c)] == ChoiceVis(cfg, u, c);
      if cfg.choices[c].kind == Tristate { ModulesTotal(cfg, u, l); }
      hide UpTo;
    }
  }

  lemma AtomTotal(cfg: Config, u: User, u': User, l: nat, a: Atom)
    requires WellFormed(cfg) && ModesKept(cfg, u, u', l) && AtomLevel(cfg, a) <= l
    ensures TryAtomTri(cfg, u', UpTo(cfg, u, l), a) == Some(AtomTri(cfg, u, a))
    ensures TryAtomStr(cfg, u', UpTo(cfg, u, l), a) == Some(AtomStr(cfg, u, a))
    ensures TryAtomNum(cfg, u', UpTo(cfg, u, l), a) == Some(AtomNum(cfg, u, a))
  {
    match a
    case Ref(Sym(s)) =>
      hide WellFormed, ModesKept, Selection, Vis;
      assert SymTri(cfg, u, s) == SymTriWith(cfg, u, s, u.TriOf(s));
      assert SymStr(cfg, u, s) == SymStrWith(cfg, u, s, u.TextOf(s));
    case Ref(Cho(c)) =>
      hide WellFormed, TryMode, ModeWith, UpTo;
      ModeTotal(cfg, u, u', l, c);
      assert c !in cfg.choices ==> Mode(cfg, u, c) == 0 && ModeWith(cfg, u, c, u'.ModeOf(c)) == 0 by {
        UndefinedMode(cfg, u, u', c);
      }
    case _ =>
  }

  lemma UndefinedMode(cfg: Config, u: User, u': User, c: nat)
    requires WellFormed(cfg)
    ensures c !in cfg.choices ==> Mode(cfg, u, c) == 0 && ModeWith(cfg, u, c, u'.ModeOf(c)) == 0
  {}

  lemma CompareTotal(cfg: Config, u: User, u': User, l: nat, x: Atom, y: Atom)
    requires WellFormed(cfg) && ModesKept(cfg, u, u', l) && AtomLevel(cfg, x) <= l && AtomLevel(cfg, y) <= l
    ensures TryCompare(cfg, u', UpTo(cfg, u, l), x, y) == Some(Compare(cfg, u, x, y))
  {
    hide WellFormed, ModesKept, AtomLevel, UpTo, TryAtomTri, TryAtomStr, TryAtomNum, AtomTri, AtomStr, AtomNum,
         KindOf, StrCmp;
    AtomTotal(cfg, u, u', l, x);
    AtomTotal(cfg, u, u', l, y);
  }

  lemma {:induction false} EvalTotal(cfg: Config, u: User, u': User, l: nat, e: Expr)
    requires WellFormed(cfg) && ModesKept(cfg, u, u', l) && Level(cfg, e) <= l
    ensures TryEval(cfg, u', UpTo(cfg, u, l), e) == Some(Eval(cfg, u, e))
    decreases e
  {
    hide WellFormed, ModesKept, AtomLevel, UpTo, TryAtomTri, TryCompare, AtomTri, Compare, Holds;
    match e
    case Leaf(a) => AtomTotal(cfg, u, u', l, a);
    case And(a, b) => EvalTotal(cfg, u, u', l, a); EvalTotal(cfg, u, u', l, b);
    case Or(a, b) => EvalTotal(cfg, u, u', l, a); EvalTotal(cfg, u, u', l, b);
    case Not(f) => EvalTotal(cfg, u, u', l, f);
    case Rel(_, x, y) => CompareTotal(cfg, u, u', l, x, y);
  }

  lemma {:induction false} MaxEvalTotal(cfg: Config, u: User, u': User, l: nat, es: seq<Expr>, bound: nat)
    requires WellFormed(cfg) && ModesKept(cfg, u, u', l) && Below(cfg, es, bound) && bound <= l
    ensures TryMaxEval(cfg, u', UpTo(cfg, u, l), es) == Some(MaxEval(cfg, u, es, bound))
  {
    hide WellFormed, ModesKept, UpTo, TryEval, Eval, Level;
    if es != [] {
      MaxEvalTotal(cfg, u, u', l, es[..|es| - 1], bound);
      assert es[|es| - 1] in es;
      EvalTotal(cfg, u, u', l, es[|es| - 1]);
    }
  }

  lemma ActsAsBoolTotal(cfg: Config, u: User, u': User, l: nat, s: string)
    requires WellFormed(cfg) && ModesKept(cfg, u, u', l) && s in cfg.syms && SymVisLevel(cfg, s) <= l
    requires cfg.syms[s].kind.Logical()
    ensures TryActsAsBool(cfg, u', UpTo(cfg, u, l), cfg.syms[s]) == Some(ActsAsBool(cfg, u, s))
  {
    hide WellFormed, UpTo, TryMode, Mode, ModeWith, Modules, TryModules, Below;
    SymFacts(cfg, s);
    var d := cfg.syms[s];
    if d.choice.Some? { ModeTotal(cfg, u, u', l, d.choice.value); }
    if d.kind == Tristate { ModulesTotal(cfg, u, l); }
  }

  lemma ChoiceVisTotal(cfg: Config, u: User, u': User, l: nat, c: nat)
    requires WellFormed(cfg) && ModesKept(cfg, u, u', l) && ChoiceVisLevel(cfg, c) <= l
    ensures TryChoiceVis(cfg, u', UpTo(cfg, u, l), c) == Some(ChoiceVis(cfg, u, c))
  {
    hide WellFormed, UpTo, TryMaxEval, MaxEval, Modules, TryModules, ModesKept;
    if c in cfg.choices {
      ChoiceFacts(cfg, c);
      var d := cfg.choices[c];
      MaxEvalTotal(cfg, u, u', l, d.prompts, 8 * cfg.rank(Cho(c)));
      if d.kind == Tristate { ModulesTotal(cfg, u, l); }
    }
  }

  lemma SymVisTotal(cfg: Config, u: User, u': User, l: nat, s: string)
    requires WellFormed(cfg) && ModesKept(cfg, u, u', l) && SymVisLevel(cfg, s) <= l
    ensures TrySymVis(cfg, u', UpTo(cfg, u, l), s) == Some(SymVis(cfg, u, s))
  {
    hide WellFormed, UpTo, TryMaxEval, MaxEval, TryMode, Mode, ModeWith, ActsAsBool, TryActsAsBool;
    if s in cfg.syms {
      SymFacts(cfg, s);
      var d := cfg.syms[s];
      MaxEvalTotal(cfg, u, u', l, d.prompts, 8 * cfg.rank(Sym(s)) + 3);
      if d.choice.Some? { ModeTotal(cfg, u, u', l, d.choice.value); }
      if d.kind == Tristate { ActsAsBoolTotal(cfg, u, u', l, s); }
    }
  }

  lemma {:induction false} FirstVisibleTotal(cfg: Config, u: User, l: nat, c: nat, syms: seq<string>)
    requires WellFormed(cfg) && c in cfg.choices && SelLevel(cfg, c) <= l
    requires forall m :: m in syms ==> m in cfg.choices[c].syms
    ensures TryFirstVisible(UpTo(cfg, u, l), syms) == Some(FirstVisible(cfg, u, c, syms))
    decreases |syms|
  {
    if syms != [] {
      CachedMember(cfg, u, l, c, syms[0]);
      hide WellFormed, UpTo, SymVis;
      FirstVisibleTotal(cfg, u, l, c, syms[1..]);
    }
  }

  /** Members are visible or not before the selection is made. */
  lemma CachedMember(cfg: Config, u: User, l: nat, c: nat, m: string)
    requires WellFormed(cfg) && c in cfg.choices && SelLevel(cfg, c) <= l && m in cfg.choices[c].syms
    ensures Get(UpTo(cfg, u, l).vis, Sym(m)) == Some(SymVis(cfg, u, m))
  {}

  lemma {:induction false} DefaultFromTotal(cfg: Config, u: User, u': User, l: nat, c: nat, ds: seq<ChoiceDefault>)
    requires WellFormed(cfg) && ModesKept(cfg, u, u', l) && c in cfg.choices && SelLevel(cfg, c) <= l
    requires forall d :: d in ds ==> d in cfg.choices[c].defaults
    ensures TryDefaultFrom(cfg, u', UpTo(cfg, u, l), ds, cfg.choices[c].syms) == Some(DefaultFrom(cfg, u, c, ds))
    decreases |ds|
  {
    hide WellFormed, ModesKept, UpTo, SymVis, TryEval, Eval, Level, ChoiceExprs, TryFirstVisible, FirstVisible;
    if ds == [] {
      FirstVisibleTotal(cfg, u, l, c, cfg.choices[c].syms);
    } else {
      assert ds[0] in cfg.choices[c].defaults;
      ChoiceCondLevel(cfg, c, ds[0]);
      EvalTotal(cfg, u, u', l, ds[0].cond);
      CachedMember(cfg, u, l, c, ds[0].sym);
      DefaultFromTotal(cfg, u, u', l, c, ds[1..]);
    }
  }

  lemma ChoiceCondLevel(cfg: Config, c: nat, d: ChoiceDefault)
    requires WellFormed(cfg) && c in cfg.choices && d in cfg.choices[c].defaults
    ensures Level(cfg, d.cond) <= 8 * cfg.rank(Cho(c)) && d.sym in cfg.choices[c].syms
  {
    ChoiceCondListed(cfg.choices[c], d);
    assert ChoiceOk(cfg, c);
  }

  lemma SelectionTotal(cfg: Config, u: User, u': User, l: nat, c: nat)
    requires WellFormed(cfg) && ModesKept(cfg, u, u', l) && SelLevel(cfg, c) <= l
    ensures TrySelection(cfg, u', UpTo(cfg, u, l), c) == Some(SelectionWith(cfg, u, c, u'.SelectionOf(c)))
  {
    hide WellFormed, UpTo, SymVis, TryMode, Mode, ModeWith, TryDefaultFrom, DefaultFrom;
    if c in cfg.choices {
      ModeTotal(cfg, u, u', l, c);
      DefaultFromTotal(cfg, u, u', l, c, cfg.choices[c].defaults);
      if c in u'.sel && u'.sel[c] in cfg.choices[c].syms { CachedMember(cfg, u, l, c, u'.sel[c]); }
    }
  }

  lemma {:induction false} PickTotal(cfg: Config, u: User, u': User, l: nat, ds: seq<Default>, bound: nat)
    requires WellFormed(cfg) && ModesKept(cfg, u, u', l) && bound <= l
    requires forall d :: d in ds ==> Level(cfg, d.cond) <= bound
    ensures TryPick(cfg, u', UpTo(cfg, u, l), ds) == Some(Pick(cfg, u, ds, bound))
  {
    hide WellFormed, ModesKept, UpTo, TryEval, Eval, Level;
    if ds != [] {
      assert ds[0] in ds;
      EvalTotal(cfg, u, u', l, ds[0].cond);
      PickTotal(cfg, u, u', l, ds[1..], bound);
    }
  }

  lemma {:induction false} RangeTotal(cfg: Config, u: User, u': User, l: nat, rs: seq<Range>, base: nat, bound: nat)
    requires WellFormed(cfg) && ModesKept(cfg, u, u', l) && bound <= l
    requires forall r :: r in rs ==>
               Level(cfg, r.cond) <= bound && AtomLevel(cfg, r.low) <= bound && AtomLevel(cfg, r.high) <= bound
    ensures TryRange(cfg, u', UpTo(cfg, u, l), rs, base) == Some(ActiveRange(cfg, u, rs, base, bound))
  {
    hide WellFormed, ModesKept, UpTo, TryEval, Eval, Level, AtomLevel, TryAtomStr, AtomStr, NumOrZero;
    if rs != [] {
      assert rs[0] in rs;
      EvalTotal(cfg, u, u', l, rs[0].cond);
      AtomTotal(cfg, u, u', l, rs[0].low);
      AtomTotal(cfg, u, u', l, rs[0].high);
      RangeTotal(cfg, u, u', l, rs[1..], base, bound);
    }
  }

  lemma PickTriTotal(cfg: Config, u: User, u': User, l: nat, s: string)
    requires WellFormed(cfg) && ModesKept(cfg, u, u', l) && s in cfg.syms && SymVisLevel(cfg, s) <= l
    ensures TryPickTri(cfg, u', UpTo(cfg, u, l), cfg.syms[s].defaults) == Some(PickTri(cfg, u, s))
  {
    hide WellFormed, ModesKept, UpTo, TryEval, Eval, Level, TryPick, Pick;
    ExprsListed(cfg, s);
    PickTotal(cfg, u, u', l, cfg.syms[s].defaults, 8 * cfg.rank(Sym(s)) + 3);
    var p := Pick(cfg, u, cfg.syms[s].defaults, 8 * cfg.rank(Sym(s)) + 3);
    if p.Some? { EvalTotal(cfg, u, u', l, p.value.0); }
  }

  lemma PickStrTotal(cfg: Config, u: User, u': User, l: nat, s: string)
    requires WellFormed(cfg) && ModesKept(cfg, u, u', l) && s in cfg.syms && SymVisLevel(cfg, s) <= l
    requires !cfg.syms[s].kind.Logical()
    ensures TryPickStr(cfg, u', UpTo(cfg, u, l), cfg.syms[s].defaults) == Some(PickStr(cfg, u, s))
  {
    hide WellFormed, ModesKept, UpTo, TryAtomStr, AtomStr, AtomLevel, TryPick, Pick, Below;
    SymFacts(cfg, s);
    ExprsListed(cfg, s);
    PickTotal(cfg, u, u', l, cfg.syms[s].defaults, 8 * cfg.rank(Sym(s)) + 3);
    var p := Pick(cfg, u, cfg.syms[s].defaults, 8 * cfg.rank(Sym(s)) + 3);
    if p.Some? { AtomTotal(cfg, u, u', l, p.value.0.a); }
  }

  lemma PlainTriTotal(cfg: Config, u: User, u': User, l: nat, s: string)
    requires WellFormed(cfg) && ModesKept(cfg, u, u', l) && s in cfg.syms && TriLevel(cfg, s) <= l
    requires cfg.syms[s].kind.Logical() && cfg.syms[s].choice.None?
    ensures TryPlainTri(cfg, u', UpTo(cfg, u, l), s, cfg.syms[s], SymVis(cfg, u, s)) ==
            Some(SymTriWith(cfg, u, s, u'.TriOf(s)))
  {
    hide WellFormed, ModesKept, UpTo, TryEval, Eval, Level, TryPickTri, PickTri, TryActsAsBool, ActsAsBool, SymVis;
    ExprsListed(cfg, s);
    var d := cfg.syms[s];
    PickTriTotal(cfg, u, u', l, s);
    EvalTotal(cfg, u, u', l, d.weakRevDep);
    EvalTotal(cfg, u, u', l, d.directDep);
    EvalTotal(cfg, u, u', l, d.revDep);
    ActsAsBoolTotal(cfg, u, u', l, s);
  }

  lemma CachedVisAt(cfg: Config, u: User, l: nat, s: string)
    requires WellFormed(cfg) && s in cfg.syms && SymVisLevel(cfg, s) < l
    ensures Get(UpTo(cfg, u, l).vis, Sym(s)) == Some(SymVis(cfg, u, s))
  {}

  lemma TriTotal(cfg: Config, u: User, u': User, l: nat, s: string)
    requires WellFormed(cfg) && ModesKept(cfg, u, u', l) && TriLevel(cfg, s) <= l
    ensures TryTri(cfg, u', UpTo(cfg, u, l), s) == Some(SymTriWith(cfg, u, s, u'.TriOf(s)))
  {
    hide WellFormed, ModesKept, SymVis, TryPlainTri, Selection, SymTri, SymStr, Vis, Below, Combine;
    if s in cfg.syms && cfg.syms[s].kind.Logical() {
      var d := cfg.syms[s];
      CachedVisAt(cfg, u, l, s);
      SymFacts(cfg, s);
      if d.choice.None? {
        PlainTriTotal(cfg, u, u', l, s);
      } else {
        var c := d.choice.value;
        assert Get(UpTo(cfg, u, l).sel, c) == Some(Selection(cfg, u, c));
      }
      hide UpTo;
    }
  }

  lemma StrTotal(cfg: Config, u: User, u': User, l: nat, s: string)
    requires WellFormed(cfg) && ModesKept(cfg, u, u', l) && StrLevel(cfg, s) <= l
    requires s in cfg.syms && !cfg.syms[s].kind.Logical()
    ensures TryStr(cfg, u', UpTo(cfg, u, l), s) == Some(SymStrWith(cfg, u, s, u'.TextOf(s)))
  {
    hide WellFormed, ModesKept, UpTo, SymVis, TryPickStr, PickStr, TryRange, SymRange, Inside, NumOrZero, Clamp;
    if cfg.syms[s].kind != Unknown {
      CachedVisAt(cfg, u, l, s);
      PickStrTotal(cfg, u, u', l, s);
      if cfg.syms[s].kind.Numeric() { SymRangeTotal(cfg, u, u', l, s); }
    }
  }

  lemma SymRangeTotal(cfg: Config, u: User, u': User, l: nat, s: string)
    requires WellFormed(cfg) && ModesKept(cfg, u, u', l) && s in cfg.syms && SymVisLevel(cfg, s) <= l
    ensures TryRange(cfg, u', UpTo(cfg, u, l), cfg.syms[s].ranges, cfg.syms[s].kind.Base()) == Some(SymRange(cfg, u, s))
  {
    hide WellFormed, ModesKept, UpTo, TryRange, ActiveRange, Level, AtomLevel;
    ExprsListed(cfg, s);
    RangeTotal(cfg, u, u', l, cfg.syms[s].ranges, cfg.syms[s].kind.Base(), 8 * cfg.rank(Sym(s)) + 3);
  }

  lemma LogicalStrTotal(cfg: Config, u: User, u': User, l: nat, s: string)
    requires WellFormed(cfg) && StrLevel(cfg, s) <= l && s in cfg.syms && cfg.syms[s].kind.Logical()
    ensures TryStr(cfg, u', UpTo(cfg, u, l), s) == Some(SymStr(cfg, u, s))
  {}

  /** The old values before stage `l` are justified under the new assignments. */
  lemma UpToJustified(cfg: Config, u: User, u': User, l: nat)
    requires WellFormed(cfg) && Unnoticed(cfg, u, u', l)
    ensures Justified(cfg, u', UpTo(cfg, u, l))
  {
    hide WellFormed, ModesKept, TryVis, TryTri, TryStr, TrySelection, TryAssignable, SymTri, SymStr, SymTriWith,
         SymStrWith,
         Selection, SelectionWith, Vis;
    var k := UpTo(cfg, u, l);
    forall i | i in k.vis ensures TryVis(cfg, u', k, i) == Some(k.vis[i]) { VisTotal(cfg, u, u', l, i); }
    forall s | s in k.tri ensures TryTri(cfg, u', k, s) == Some(k.tri[s]) { TriTotal(cfg, u, u', l, s); }
    forall s | s in k.str ensures TryStr(cfg, u', k, s) == Some(k.str[s]) {
      if cfg.syms[s].kind.Logical() {
        LogicalStrTotal(cfg, u, u', l, s);
      } else {
        StrTotal(cfg, u, u', l, s);
      }
    }
    forall c | c in k.sel ensures TrySelection(cfg, u', k, c) == Some(k.sel[c]) { SelectionTotal(cfg, u, u', l, c); }
  }

  lemma VisTotal(cfg: Config, u: User, u': User, l: nat, i: Item)
    requires WellFormed(cfg) && ModesKept(cfg, u, u', l) && VisLevel(cfg, i) <= l
    ensures TryVis(cfg, u', UpTo(cfg, u, l), i) == Some(Vis(cfg, u, i))
  {
    match i
    case Sym(s) => SymVisTotal(cfg, u, u', l, s);
    case Cho(c) => ChoiceVisTotal(cfg, u, u', l, c);
  }

  /** Fields determined before stage `l` have the same values under both user states. */
  ghost predicate SameBefore(cfg: Config, u: User, u': User, l: nat)
    requires WellFormed(cfg)
  {
    && (forall i :: i in Defined(cfg) && VisLevel(cfg, i) < l ==> Vis(cfg, u', i) == Vis(cfg, u, i))
    && (forall s :: s in cfg.syms && TriLevel(cfg, s) < l ==> SymTri(cfg, u', s) == SymTri(cfg, u, s))
    && (forall s :: s in cfg.syms && StrLevel(cfg, s) < l ==> SymStr(cfg, u', s) == SymStr(cfg, u, s))
    && (forall c :: c in cfg.choices && SelLevel(cfg, c) < l ==> Selection(cfg, u', c) == Selection(cfg, u, c))
  }

  lemma UnnoticedIsSame(cfg: Config, u: User, u': User, l: nat)
    requires WellFormed(cfg) && Unnoticed(cfg, u, u', l)
    ensures SameBefore(cfg, u, u', l)
  {
    hide WellFormed, Unnoticed, SymTri, SymStr, Selection, Vis, Justified;
    UpToJustified(cfg, u, u', l);
    JustifiedIsCoherent(cfg, u', UpTo(cfg, u, l));
  }

  /** The two user states give every symbol and choice the same values. */
  ghost predicate SameValues(cfg: Config, u: User, u': User)
    requires WellFormed(cfg)
  {
    && (forall i :: i in Defined(cfg) ==> Vis(cfg, u', i) == Vis(cfg, u, i))
    && (forall s :: s in cfg.syms ==> SymTri(cfg, u', s) == SymTri(cfg, u, s))
    && (forall s :: s in cfg.syms ==> SymStr(cfg, u', s) == SymStr(cfg, u, s))
    && (forall c :: c in cfg.choices ==> Selection(cfg, u', c) == Selection(cfg, u, c))
  }

  /** No item would notice that its own assignments changed. */
  ghost predicate NothingNoticed(cfg: Config, u: User, u': User)
    requires WellFormed(cfg)
  {
    && (forall c :: c in cfg.choices ==>
          && ModeWith(cfg, u, c, u'.ModeOf(c)) == Mode(cfg, u, c)
          && SelectionWith(cfg, u, c, u'.SelectionOf(c)) == Selection(cfg, u, c))
    && (forall s :: s in cfg.syms ==>
          && SymTriWith(cfg, u, s, u'.TriOf(s)) == SymTri(cfg, u, s)
          && SymStrWith(cfg, u, s, u'.TextOf(s)) == SymStr(cfg, u, s))
  }

  /** The theorem of this module. */
  lemma Reassign(cfg: Config, u: User, u': User)
    requires WellFormed(cfg) && NothingNoticed(cfg, u, u')
    ensures SameValues(cfg, u, u')
  {
    hide WellFormed, SymTri, SymStr, Selection, Vis, Mode, SymTriWith, SymStrWith, SelectionWith, ModeWith;
    forall l: nat ensures Unnoticed(cfg, u, u', l) {}
    hide NothingNoticed, Unnoticed;
    forall i | i in Defined(cfg) ensures Vis(cfg, u', i) == Vis(cfg, u, i) {
      UnnoticedIsSame(cfg, u, u', VisLevel(cfg, i) + 1);
    }
    forall s | s in cfg.syms
      ensures SymTri(cfg, u', s) == SymTri(cfg, u, s) && SymStr(cfg, u', s) == SymStr(cfg, u, s)
    {
      UnnoticedIsSame(cfg, u, u', StrLevel(cfg, s) + 1);
    }
    forall c | c in cfg.choices ensures Selection(cfg, u', c) == Selection(cfg, u, c) {
      UnnoticedIsSame(cfg, u, u', SelLevel(cfg, c) + 1);
    }
  }

  /** `u'` differs from `u` at most in what is assigned to `s`. */
  ghost predicate OnlyAt(u: User, u': User, s: string) {
    && u'.mode == u.mode && u'.sel == u.sel
    && forall x :: x != s ==> u'.TriOf(x) == u.TriOf(x) && u'.TextOf(x) == u.TextOf(x)
  }

  lemma OwnLevel(cfg: Config, u: User, u': User, s: string)
    requires WellFormed(cfg) && s in cfg.syms && OnlyAt(u, u', s)
    ensures var l := TriLevel(cfg, s);
            Unnoticed(cfg, u, u', l) && ModesKept(cfg, u, u', l) && Justified(cfg, u', UpTo(cfg, u, l))
  {
    var l := TriLevel(cfg, s);
    hide WellFormed, Justified, SymTriWith, SymStrWith, SelectionWith, ModeWith;
    assert Unnoticed(cfg, u, u', l);
    UpToJustified(cfg, u, u', l);
  }

  /** A symbol cannot affect its own bounds: giving `s` another value changes `s` as if everything it
      reads stayed put, and that stays put. */
  lemma OwnChange(cfg: Config, u: User, u': User, s: string)
    requires WellFormed(cfg) && s in cfg.syms && cfg.syms[s].kind.Logical() && cfg.syms[s].choice.None?
    requires OnlyAt(u, u', s)
    ensures SymTri(cfg, u', s) == SymTriWith(cfg, u, s, u'.TriOf(s))
    ensures SymVis(cfg, u', s) == SymVis(cfg, u, s)
    ensures var d := cfg.syms[s];
            && Eval(cfg, u', d.revDep) == Eval(cfg, u, d.revDep)
            && Eval(cfg, u', d.weakRevDep) == Eval(cfg, u, d.weakRevDep)
            && Eval(cfg, u', d.directDep) == Eval(cfg, u, d.directDep)
            && ActsAsBool(cfg, u', s) == ActsAsBool(cfg, u, s)
    ensures SymAssignable(cfg, u', s) == SymAssignable(cfg, u, s)
  {
    hide WellFormed, Justified, SymTri, SymTriWith, TryTri, SymVis, Eval, ActsAsBool, Unnoticed, ModesKept, UpTo;
    var l := TriLevel(cfg, s);
    OwnLevel(cfg, u, u', s);
    var k := UpTo(cfg, u, l);
    TriTotal(cfg, u, u', l, s);
    CachedVisAt(cfg, u, l, s);
    OneMore(cfg, u', k, s, SymTriWith(cfg, u, s, u'.TriOf(s)));
    SymVisSound(cfg, u', k, s);
    OwnDependencies(cfg, u, u', s);
  }

  lemma OwnDependencies(cfg: Config, u: User, u': User, s: string)
    requires WellFormed(cfg) && s in cfg.syms && cfg.syms[s].kind.Logical() && OnlyAt(u, u', s)
    ensures var d := cfg.syms[s];
            && Eval(cfg, u', d.revDep) == Eval(cfg, u, d.revDep)
            && Eval(cfg, u', d.weakRevDep) == Eval(cfg, u, d.weakRevDep)
            && Eval(cfg, u', d.directDep) == Eval(cfg, u, d.directDep)
            && ActsAsBool(cfg, u', s) == ActsAsBool(cfg, u, s)
  {
    ExprsListed(cfg, s);
    hide WellFormed, Justified, Eval, TryEval, ActsAsBool, TryActsAsBool, Unnoticed, ModesKept, UpTo, Level, OnlyAt;
    var d, l := cfg.syms[s], TriLevel(cfg, s);
    OwnLevel(cfg, u, u', s);
    var k := UpTo(cfg, u, l);
    forall e | Level(cfg, e) <= l ensures Eval(cfg, u', e) == Eval(cfg, u, e) {
      EvalTotal(cfg, u, u', l, e);
      EvalSound(cfg, u', k, e);
    }
    ActsAsBoolTotal(cfg, u, u', l, s);
    ActsAsBoolSound(cfg, u', k, s);
  }

  /** The same for symbols that are not logical. */
  lemma OwnText(cfg: Config, u: User, u': User, s: string)
    requires WellFormed(cfg) && s in cfg.syms && !cfg.syms[s].kind.Logical() && OnlyAt(u, u', s)
    ensures SymStr(cfg, u', s) == SymStrWith(cfg, u, s, u'.TextOf(s))
  {
    hide WellFormed, Justified, SymStr, SymStrWith, TryStr, Unnoticed, ModesKept, UpTo;
    var l := StrLevel(cfg, s);
    OwnTextLevel(cfg, u, u', s);
    var k := UpTo(cfg, u, l);
    StrTotal(cfg, u, u', l, s);
    OneMoreStr(cfg, u', k, s, SymStrWith(cfg, u, s, u'.TextOf(s)));
  }

  lemma OwnTextLevel(cfg: Config, u: User, u': User, s: string)
    requires WellFormed(cfg) && s in cfg.syms && !cfg.syms[s].kind.Logical() && OnlyAt(u, u', s)
    ensures var l := StrLevel(cfg, s); ModesKept(cfg, u, u', l) && Justified(cfg, u', UpTo(cfg, u, l))
    ensures s !in UpTo(cfg, u, StrLevel(cfg, s)).str
  {
    var l := StrLevel(cfg, s);
    assert SymTriWith(cfg, u, s, u'.TriOf(s)) == SymTriWith(cfg, u, s, u.TriOf(s));
    hide WellFormed, Justified, SymTriWith, SymStrWith, SelectionWith, ModeWith;
    assert Unnoticed(cfg, u, u', l);
    UpToJustified(cfg, u, u', l);
  }

  lemma OneMoreStr(cfg: Config, u: User, k: Cache, s: string, v: Text)
    requires WellFormed(cfg) && Justified(cfg, u, k) && TryStr(cfg, u, k, s) == Some(v) && s !in k.str
    ensures SymStr(cfg, u, s) == v
  {
    hide TryVis, TryTri, TryStr, TrySelection, TryAssignable, WellFormed, Inputs;
    var k' := k.(str := k.str[s := v]);
    forall j ensures Keeps(u, k, u, k', j) {}
    CarryStr(cfg, u, k, u, k', s);
    GrowthKeeps(cfg, u, k, k');
    StrSound(cfg, u, k', s);
  }

  lemma OneMore(cfg: Config, u: User, k: Cache, s: string, v: Computed)
    requires WellFormed(cfg) && Justified(cfg, u, k) && TryTri(cfg, u, k, s) == Some(v)
    ensures SymTri(cfg, u, s) == v
  {
    hide TryVis, TryTri, TryStr, TrySelection, TryAssignable, WellFormed, Inputs;
    var k' := k.(tri := k.tri[s := v]);
    forall j ensures Keeps(u, k, u, k', j) {}
    CarryTri(cfg, u, k, u, k', s);
    GrowthKeeps(cfg, u, k, k');
    TriSound(cfg, u, k', s);
  }
}
