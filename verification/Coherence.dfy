/** Justified caches hold the cache-free values, whatever is missing from them. */
module KconfigCoherence {
  import opened Basics
  import opened KconfigModel
  import opened KconfigValues
  import opened KconfigCaches

  lemma AtomTriSound(cfg: Config, u: User, k: Cache, a: Atom)
    requires WellFormed(cfg) && Justified(cfg, u, k)
    ensures TryAtomTri(cfg, u, k, a).Some? ==> TryAtomTri(cfg, u, k, a).value == AtomTri(cfg, u, a)
    decreases AtomLevel(cfg, a), 1
  {
    match a
    case Ref(Sym(s)) =>
      assert SymTri(cfg, u, s) == SymTriWith(cfg, u, s, u.TriOf(s));
      if s in k.tri { TriSound(cfg, u, k, s); }
    case Ref(Cho(c)) => ModeSound(cfg, u, k, c);
    case _ =>
  }

  lemma AtomStrSound(cfg: Config, u: User, k: Cache, a: Atom)
    requires WellFormed(cfg) && Justified(cfg, u, k)
    ensures TryAtomStr(cfg, u, k, a).Some? ==> TryAtomStr(cfg, u, k, a).value == AtomStr(cfg, u, a)
    decreases AtomLevel(cfg, a), 1
  {
    match a
    case Ref(Sym(s)) =>
      assert SymStr(cfg, u, s) == SymStrWith(cfg, u, s, u.TextOf(s));
      if s in k.str { StrSound(cfg, u, k, s); }
    case Ref(Cho(c)) => ModeSound(cfg, u, k, c);
    case _ =>
  }

  lemma AtomNumSound(cfg: Config, u: User, k: Cache, a: Atom)
    requires WellFormed(cfg) && Justified(cfg, u, k)
    ensures TryAtomNum(cfg, u, k, a).Some? ==> TryAtomNum(cfg, u, k, a).value == AtomNum(cfg, u, a)
    decreases AtomLevel(cfg, a), 2
  {
    AtomTriSound(cfg, u, k, a);
    AtomStrSound(cfg, u, k, a);
  }

  lemma CompareSound(cfg: Config, u: User, k: Cache, x: Atom, y: Atom)
    requires WellFormed(cfg) && Justified(cfg, u, k)
    ensures TryCompare(cfg, u, k, x, y).Some? ==> TryCompare(cfg, u, k, x, y).value == Compare(cfg, u, x, y)
    decreases MaxNat(AtomLevel(cfg, x), AtomLevel(cfg, y)), 3
  {
    hide Justified, WellFormed, AtomTri, AtomStr, AtomNum, TryAtomTri, TryAtomStr, TryAtomNum, KindOf, StrCmp;
    AtomNumSound(cfg, u, k, x);
    AtomNumSound(cfg, u, k, y);
    AtomStrSound(cfg, u, k, x);
    AtomStrSound(cfg, u, k, y);
  }

  lemma {:induction false} EvalSound(cfg: Config, u: User, k: Cache, e: Expr)
    requires WellFormed(cfg) && Justified(cfg, u, k)
    ensures TryEval(cfg, u, k, e).Some? ==> TryEval(cfg, u, k, e).value == Eval(cfg, u, e)
    decreases Level(cfg, e), 4, e
  {
    match e
    case Leaf(a) => AtomTriSound(cfg, u, k, a);
    case And(l, r) => EvalSound(cfg, u, k, l); EvalSound(cfg, u, k, r);
    case Or(l, r) => EvalSound(cfg, u, k, l); EvalSound(cfg, u, k, r);
    case Not(f) => EvalSound(cfg, u, k, f);
    case Rel(_, x, y) => CompareSound(cfg, u, k, x, y);
  }

  lemma {:induction false} MaxEvalSound(cfg: Config, u: User, k: Cache, es: seq<Expr>, bound: nat)
    requires WellFormed(cfg) && Justified(cfg, u, k) && Below(cfg, es, bound)
    ensures TryMaxEval(cfg, u, k, es).Some? ==> TryMaxEval(cfg, u, k, es).value == MaxEval(cfg, u, es, bound)
    decreases bound, 5, |es|
  {
    if es != [] {
      MaxEvalSound(cfg, u, k, es[..|es| - 1], bound);
      EvalSound(cfg, u, k, es[|es| - 1]);
    }
  }

  lemma ModulesSound(cfg: Config, u: User, k: Cache)
    requires WellFormed(cfg) && Justified(cfg, u, k)
    ensures TryModules(cfg, k).Some? ==> TryModules(cfg, k).value == Modules(cfg, u)
    decreases TriLevel(cfg, MODULES), 2
  {
    assert SymTri(cfg, u, MODULES) == SymTriWith(cfg, u, MODULES, u.TriOf(MODULES));
    if MODULES in k.tri { TriSound(cfg, u, k, MODULES); }
  }

  lemma ChoiceVisSound(cfg: Config, u: User, k: Cache, c: nat)
    requires WellFormed(cfg) && Justified(cfg, u, k) && Cho(c) in k.vis
    ensures k.vis[Cho(c)] == ChoiceVis(cfg, u, c)
    decreases ChoiceVisLevel(cfg, c), 0
  {
    assert TryVis(cfg, u, k, Cho(c)) == Some(k.vis[Cho(c)]);
    if c in cfg.choices {
      var d := cfg.choices[c];
      assert ChoiceOk(cfg, c);
      assert Below(cfg, d.prompts, 8 * cfg.rank(Cho(c)));
      MaxEvalSound(cfg, u, k, d.prompts, 8 * cfg.rank(Cho(c)));
      if d.kind == Tristate { ModulesSound(cfg, u, k); }
    }
  }

  lemma ModeSound(cfg: Config, u: User, k: Cache, c: nat)
    requires WellFormed(cfg) && Justified(cfg, u, k)
    ensures TryMode(cfg, u, k, c).Some? ==> TryMode(cfg, u, k, c).value == Mode(cfg, u, c)
    decreases ModeLevel(cfg, c), 0
  {
    if c in cfg.choices && Cho(c) in k.vis {
      assert ChoiceOk(cfg, c);
      ChoiceVisSound(cfg, u, k, c);
      if cfg.choices[c].kind == Tristate { ModulesSound(cfg, u, k); }
    }
  }

  lemma ActsAsBoolSound(cfg: Config, u: User, k: Cache, s: string)
    requires WellFormed(cfg) && Justified(cfg, u, k) && s in cfg.syms
    ensures var b := TryActsAsBool(cfg, u, k, cfg.syms[s]); b.Some? ==> b.value == ActsAsBool(cfg, u, s)
    decreases SymVisLevel(cfg, s), 0
  {
    var d := cfg.syms[s];
    assert SymOk(cfg, s);
    if d.choice.Some? { ModeSound(cfg, u, k, d.choice.value); }
    if d.kind == Tristate { ModulesSound(cfg, u, k); }
  }

  lemma SymVisSound(cfg: Config, u: User, k: Cache, s: string)
    requires WellFormed(cfg) && Justified(cfg, u, k) && Sym(s) in k.vis
    ensures k.vis[Sym(s)] == SymVis(cfg, u, s)
    decreases SymVisLevel(cfg, s), 1
  {
    assert TryVis(cfg, u, k, Sym(s)) == Some(k.vis[Sym(s)]);
    if s in cfg.syms {
      var d := cfg.syms[s];
      SymFacts(cfg, s);
      hide WellFormed, Below, Justified, MaxEval, TryMaxEval, Mode, TryMode, ActsAsBool, TryActsAsBool, SymVis,
           TrySymVis;
      MaxEvalSound(cfg, u, k, d.prompts, 8 * cfg.rank(Sym(s)) + 3);
      if d.choice.Some? { ModeSound(cfg, u, k, d.choice.value); }
      ActsAsBoolSound(cfg, u, k, s);
      SymVisFrom(cfg, u, k, s);
    }
  }

  /** The parts of a visibility decide it. */
  lemma SymVisFrom(cfg: Config, u: User, k: Cache, s: string)
    requires WellFormed(cfg) && s in cfg.syms && Below(cfg, cfg.syms[s].prompts, 8 * cfg.rank(Sym(s)) + 3)
    requires var v := TryMaxEval(cfg, u, k, cfg.syms[s].prompts);
             v.Some? ==> v.value == MaxEval(cfg, u, cfg.syms[s].prompts, 8 * cfg.rank(Sym(s)) + 3)
    requires var c := cfg.syms[s].choice;
             c.Some? ==> var m := TryMode(cfg, u, k, c.value); m.Some? ==> m.value == Mode(cfg, u, c.value)
    requires var b := TryActsAsBool(cfg, u, k, cfg.syms[s]); b.Some? ==> b.value == ActsAsBool(cfg, u, s)
    ensures TrySymVis(cfg, u, k, s).Some? ==> TrySymVis(cfg, u, k, s).value == SymVis(cfg, u, s)
  {
    hide WellFormed, Below, MaxEval, TryMaxEval, Mode, TryMode, ActsAsBool, TryActsAsBool;
    SymFacts(cfg, s);
  }

  lemma {:induction false} FirstVisibleSound(cfg: Config, u: User, k: Cache, c: nat, syms: seq<string>)
    requires WellFormed(cfg) && Justified(cfg, u, k) && c in cfg.choices
    requires forall m :: m in syms ==> m in cfg.choices[c].syms
    ensures TryFirstVisible(k, syms).Some? ==> TryFirstVisible(k, syms).value == FirstVisible(cfg, u, c, syms)
    decreases SelLevel(cfg, c), 0, |syms|
  {
    if syms != [] && Sym(syms[0]) in k.vis {
      assert ChoiceOk(cfg, c) && SymOk(cfg, syms[0]);
      SymVisSound(cfg, u, k, syms[0]);
      FirstVisibleSound(cfg, u, k, c, syms[1..]);
    }
  }

  lemma {:induction false} DefaultFromSound(cfg: Config, u: User, k: Cache, c: nat, ds: seq<ChoiceDefault>)
    requires WellFormed(cfg) && Justified(cfg, u, k) && c in cfg.choices
    requires forall d :: d in ds ==> d in cfg.choices[c].defaults
    ensures var r := TryDefaultFrom(cfg, u, k, ds, cfg.choices[c].syms);
            r.Some? ==> r.value == DefaultFrom(cfg, u, c, ds)
    decreases SelLevel(cfg, c), 1, |ds|
  {
    if ds == [] {
      FirstVisibleSound(cfg, u, k, c, cfg.choices[c].syms);
    } else {
      assert ds[0] in cfg.choices[c].defaults;
      ChoiceCondListed(cfg.choices[c], ds[0]);
      assert ChoiceOk(cfg, c) && SymOk(cfg, ds[0].sym);
      EvalSound(cfg, u, k, ds[0].cond);
      if Sym(ds[0].sym) in k.vis { SymVisSound(cfg, u, k, ds[0].sym); }
      DefaultFromSound(cfg, u, k, c, ds[1..]);
    }
  }

  lemma SelectionSound(cfg: Config, u: User, k: Cache, c: nat)
    requires WellFormed(cfg) && Justified(cfg, u, k) && c in k.sel
    ensures k.sel[c] == Selection(cfg, u, c)
    decreases SelLevel(cfg, c), 2
  {
    assert TrySelection(cfg, u, k, c) == Some(k.sel[c]);
    if c in cfg.choices {
      assert ChoiceOk(cfg, c);
      ModeSound(cfg, u, k, c);
      if c in u.sel && u.sel[c] in cfg.choices[c].syms && Sym(u.sel[c]) in k.vis {
        assert SymOk(cfg, u.sel[c]);
        SymVisSound(cfg, u, k, u.sel[c]);
      }
      DefaultFromSound(cfg, u, k, c, cfg.choices[c].defaults);
    }
  }

  lemma {:induction false} PickSound(cfg: Config, u: User, k: Cache, ds: seq<Default>, bound: nat)
    requires WellFormed(cfg) && Justified(cfg, u, k)
    requires forall d :: d in ds ==> Level(cfg, d.cond) <= bound
    ensures TryPick(cfg, u, k, ds).Some? ==> TryPick(cfg, u, k, ds).value == Pick(cfg, u, ds, bound)
    decreases bound, 5, |ds|
  {
    if ds != [] {
      assert ds[0] in ds;
      EvalSound(cfg, u, k, ds[0].cond);
      PickSound(cfg, u, k, ds[1..], bound);
    }
  }

  lemma {:induction false} RangeSound(cfg: Config, u: User, k: Cache, rs: seq<Range>, base: nat, bound: nat)
    requires WellFormed(cfg) && Justified(cfg, u, k)
    requires forall r :: r in rs ==>
               Level(cfg, r.cond) <= bound && AtomLevel(cfg, r.low) <= bound && AtomLevel(cfg, r.high) <= bound
    ensures var r := TryRange(cfg, u, k, rs, base); r.Some? ==> r.value == ActiveRange(cfg, u, rs, base, bound)
    decreases bound, 5, |rs|
  {
    if rs != [] {
      assert rs[0] in rs;
      EvalSound(cfg, u, k, rs[0].cond);
      AtomStrSound(cfg, u, k, rs[0].low);
      AtomStrSound(cfg, u, k, rs[0].high);
      RangeSound(cfg, u, k, rs[1..], base, bound);
    }
  }

  lemma PickTriSound(cfg: Config, u: User, k: Cache, s: string)
    requires WellFormed(cfg) && Justified(cfg, u, k) && s in cfg.syms
    ensures var p := TryPickTri(cfg, u, k, cfg.syms[s].defaults); p.Some? ==> p.value == PickTri(cfg, u, s)
    decreases SymVisLevel(cfg, s), 0
  {
    hide WellFormed, Justified, Eval, TryEval, Pick, TryPick, Level;
    var d := cfg.syms[s];
    ExprsListed(cfg, s);
    PickSound(cfg, u, k, d.defaults, 8 * cfg.rank(Sym(s)) + 3);
    var p := Pick(cfg, u, d.defaults, 8 * cfg.rank(Sym(s)) + 3);
    if p.Some? {
      EvalSound(cfg, u, k, p.value.0);
    }
  }

  lemma PlainTriSound(cfg: Config, u: User, k: Cache, s: string)
    requires WellFormed(cfg) && Justified(cfg, u, k)
    requires s in cfg.syms && cfg.syms[s].kind.Logical() && cfg.syms[s].choice.None? && Sym(s) in k.vis
    ensures var r := TryPlainTri(cfg, u, k, s, cfg.syms[s], k.vis[Sym(s)]);
            r.Some? ==> r.value == SymTriWith(cfg, u, s, u.TriOf(s))
    decreases TriLevel(cfg, s), 0
  {
    hide WellFormed, Justified, Eval, TryEval, PickTri, TryPickTri, ActsAsBool, TryActsAsBool, SymVis, Level,
         TryPlainTri, SymTriWith;
    var d := cfg.syms[s];
    ExprsListed(cfg, s);
    SymVisSound(cfg, u, k, s);
    PickTriSound(cfg, u, k, s);
    EvalSound(cfg, u, k, d.weakRevDep);
    EvalSound(cfg, u, k, d.directDep);
    EvalSound(cfg, u, k, d.revDep);
    ActsAsBoolSound(cfg, u, k, s);
    PlainTriFrom(cfg, u, k, s);
  }

  /** The same for a logical value. */
  lemma PlainTriFrom(cfg: Config, u: User, k: Cache, s: string)
    requires WellFormed(cfg) && s in cfg.syms && cfg.syms[s].kind.Logical() && cfg.syms[s].choice.None?
    requires var d := cfg.syms[s];
             forall e :: e in {d.revDep, d.weakRevDep, d.directDep} && TryEval(cfg, u, k, e).Some? ==>
               TryEval(cfg, u, k, e).value == Eval(cfg, u, e)
    requires var p := TryPickTri(cfg, u, k, cfg.syms[s].defaults); p.Some? ==> p.value == PickTri(cfg, u, s)
    requires var b := TryActsAsBool(cfg, u, k, cfg.syms[s]); b.Some? ==> b.value == ActsAsBool(cfg, u, s)
    ensures var r := TryPlainTri(cfg, u, k, s, cfg.syms[s], SymVis(cfg, u, s));
            r.Some? ==> r.value == SymTriWith(cfg, u, s, u.TriOf(s))
  {
    hide WellFormed, Eval, TryEval, PickTri, TryPickTri, ActsAsBool, TryActsAsBool, SymVis;
    var d := cfg.syms[s];
    assert d.revDep in {d.revDep, d.weakRevDep, d.directDep} && d.weakRevDep in {d.revDep, d.weakRevDep, d.directDep};
  }

  lemma TriSound(cfg: Config, u: User, k: Cache, s: string)
    requires WellFormed(cfg) && Justified(cfg, u, k) && s in k.tri
    ensures k.tri[s] == SymTri(cfg, u, s)
    decreases TriLevel(cfg, s), 1
  {
    assert TryTri(cfg, u, k, s) == Some(k.tri[s]);
    if s in cfg.syms && cfg.syms[s].kind.Logical() {
      var d := cfg.syms[s];
      assert SymOk(cfg, s);
      SymVisSound(cfg, u, k, s);
      if d.choice.None? {
        PlainTriSound(cfg, u, k, s);
      } else if d.choice.value in k.sel {
        SelectionSound(cfg, u, k, d.choice.value);
      }
    }
  }

  lemma StrSound(cfg: Config, u: User, k: Cache, s: string)
    requires WellFormed(cfg) && Justified(cfg, u, k) && s in k.str
    ensures k.str[s] == SymStr(cfg, u, s)
    decreases StrLevel(cfg, s), 1
  {
    assert TryStr(cfg, u, k, s) == Some(k.str[s]);
    if s in cfg.syms && cfg.syms[s].kind != Unknown {
      var d := cfg.syms[s];
      assert SymOk(cfg, s);
      if d.kind.Logical() {
        TriSound(cfg, u, k, s);
      } else {
        TextSound(cfg, u, k, s);
      }
    }
  }

  lemma PickStrSound(cfg: Config, u: User, k: Cache, s: string)
    requires WellFormed(cfg) && Justified(cfg, u, k)
    requires s in cfg.syms && !cfg.syms[s].kind.Logical()
    ensures var p := TryPickStr(cfg, u, k, cfg.syms[s].defaults); p.Some? ==> p.value == PickStr(cfg, u, s)
    decreases SymVisLevel(cfg, s), 0
  {
    hide WellFormed, Justified, AtomStr, TryAtomStr, Pick, TryPick, AtomLevel, Below;
    SymFacts(cfg, s);
    var d := cfg.syms[s];
    var bound := 8 * cfg.rank(Sym(s)) + 3;
    ExprsListed(cfg, s);
    PickSound(cfg, u, k, d.defaults, bound);
    var p := Pick(cfg, u, d.defaults, bound);
    if p.Some? {
      AtomStrSound(cfg, u, k, p.value.0.a);
    }
  }

  lemma TextSound(cfg: Config, u: User, k: Cache, s: string)
    requires WellFormed(cfg) && Justified(cfg, u, k)
    requires s in cfg.syms && cfg.syms[s].kind != Unknown && !cfg.syms[s].kind.Logical()
    ensures TryStr(cfg, u, k, s).Some? ==> TryStr(cfg, u, k, s).value == SymStr(cfg, u, s)
    decreases StrLevel(cfg, s), 0
  {
    hide WellFormed, Justified, PickStr, TryPickStr, TryRange, SymVis, Inside, NumOrZero, Clamp, TriText;
    var d := cfg.syms[s];
    if Sym(s) in k.vis { SymVisSound(cfg, u, k, s); }
    PickStrSound(cfg, u, k, s);
    if d.kind.Numeric() {
      ExprsListed(cfg, s);
      RangeSound(cfg, u, k, d.ranges, d.kind.Base(), 8 * cfg.rank(Sym(s)) + 3);
      assert TryRange(cfg, u, k, d.ranges, d.kind.Base()).Some? ==>
          TryRange(cfg, u, k, d.ranges, d.kind.Base()).value == SymRange(cfg, u, s);
    }
  }

  lemma AssignableSound(cfg: Config, u: User, k: Cache, i: Item)
    requires WellFormed(cfg) && Justified(cfg, u, k)
    ensures TryAssignable(cfg, u, k, i).Some? ==> TryAssignable(cfg, u, k, i).value == Assignable(cfg, u, i)
  {
    hide WellFormed, Justified, Eval, TryEval, SymVis, ChoiceVis, ActsAsBool, TryActsAsBool, Modules, TryModules;
    match i
    case Sym(s) =>
      if s in cfg.syms && cfg.syms[s].kind.Logical() && i in k.vis {
        SymVisSound(cfg, u, k, s);
        EvalSound(cfg, u, k, cfg.syms[s].revDep);
        EvalSound(cfg, u, k, cfg.syms[s].weakRevDep);
        ActsAsBoolSound(cfg, u, k, s);
      }
    case Cho(c) =>
      if c in cfg.choices && i in k.vis {
        ChoiceFacts(cfg, c);
        ChoiceVisSound(cfg, u, k, c);
        ModulesSound(cfg, u, k);
      }
  }

  /** The main point: justified caches are coherent. */
  lemma JustifiedIsCoherent(cfg: Config, u: User, k: Cache)
    requires WellFormed(cfg) && Justified(cfg, u, k)
    ensures Coherent(cfg, u, k)
  {
    forall i | i in k.vis ensures k.vis[i] == Vis(cfg, u, i) {
      match i
      case Sym(s) => SymVisSound(cfg, u, k, s);
      case Cho(c) => ChoiceVisSound(cfg, u, k, c);
    }
    forall s | s in k.tri ensures k.tri[s] == SymTri(cfg, u, s) { TriSound(cfg, u, k, s); }
    forall s | s in k.str ensures k.str[s] == SymStr(cfg, u, s) { StrSound(cfg, u, k, s); }
    forall c | c in k.sel ensures k.sel[c] == Selection(cfg, u, c) { SelectionSound(cfg, u, k, c); }
    forall i | i in k.asg ensures k.asg[i] == Assignable(cfg, u, i) {
      assert TryAssignable(cfg, u, k, i) == Some(k.asg[i]);
      AssignableSound(cfg, u, k, i);
    }
  }
}
