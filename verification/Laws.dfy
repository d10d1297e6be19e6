/** What users can rely on: how a choice behaves in each mode, and which values stick. */
module KconfigLaws {
  import opened Basics
  import opened KconfigModel
  import opened KconfigValues
  import opened KconfigMeaning
  import opened KconfigCaches
  import opened KconfigCoherence
  import opened KconfigInvalidation
  import opened KconfigReassignment
  import opened KconfigAssignments

  // Choices

  /** `e` is a conjunction with the choice `c` among its conjuncts, or constantly n: what dependency
      propagation makes of conditions inside the choice. */
  predicate UnderChoice(c: nat, e: Expr) {
    match e
    case Leaf(Nmy(t)) => t == 0
    case Leaf(a) => a == Ref(Cho(c))
    case And(l, r) => UnderChoice(c, l) || UnderChoice(c, r)
    case _ => false
  }

  /** All prompts of the symbols of `c` are inside `c`. */
  ghost predicate PromptsInside(cfg: Config, c: nat)
    requires c in cfg.choices
  {
    forall m, e :: m in cfg.choices[c].syms && m in cfg.syms && e in cfg.syms[m].prompts ==> UnderChoice(c, e)
  }

  lemma {:induction false} UnderChoiceBounded(cfg: Config, u: User, c: nat, e: Expr)
    requires WellFormed(cfg) && UnderChoice(c, e)
    ensures Eval(cfg, u, e) <= Mode(cfg, u, c)
    decreases e
  {
    match e
    case And(l, r) => UnderChoiceBounded(cfg, u, c, if UnderChoice(c, l) then l else r);
    case _ =>
  }

  lemma {:induction false} PromptsBounded(cfg: Config, u: User, c: nat, es: seq<Expr>, bound: nat)
    requires WellFormed(cfg) && Below(cfg, es, bound) && forall e :: e in es ==> UnderChoice(c, e)
    ensures MaxEval(cfg, u, es, bound) <= Mode(cfg, u, c)
  {
    if es != [] {
      PromptsBounded(cfg, u, c, es[..|es| - 1], bound);
      assert es[|es| - 1] in es;
      UnderChoiceBounded(cfg, u, c, es[|es| - 1]);
    }
  }

  /** Members are invisible in n mode, in m mode at most m-visible, and in y mode either invisible or fully
      visible. Those that are visible in m mode are tristate. */
  lemma MemberVisibility(cfg: Config, u: User, c: nat, m: string)
    requires WellFormed(cfg) && c in cfg.choices && m in cfg.choices[c].syms && PromptsInside(cfg, c)
    ensures Mode(cfg, u, c) == 0 ==> SymVis(cfg, u, m) == 0
    ensures Mode(cfg, u, c) == 2 ==> SymVis(cfg, u, m) != 1
    ensures Mode(cfg, u, c) == 1 ==> SymVis(cfg, u, m) != 2
    ensures Mode(cfg, u, c) == 1 && SymVis(cfg, u, m) != 0 ==> cfg.syms[m].kind == Tristate
  {
    hide Mode, MaxEval, Modules, WellFormed, Below;
    MembersRank(cfg, c);
    MemberIn(cfg, c, m);
    SymFacts(cfg, m);
    ModeMeans(cfg, u, c);
    PromptsBounded(cfg, u, c, cfg.syms[m].prompts, 8 * cfg.rank(Sym(m)) + 3);
  }

  lemma MemberIn(cfg: Config, c: nat, m: string)
    requires WellFormed(cfg) && c in cfg.choices && m in cfg.choices[c].syms
    ensures m in cfg.syms && cfg.syms[m].choice == Some(c)
  {
    assert ChoiceOk(cfg, c);
  }

  lemma {:induction false} FirstVisibleFound(cfg: Config, u: User, c: nat, syms: seq<string>)
    requires WellFormed(cfg) && c in cfg.choices && forall m :: m in syms ==> m in cfg.choices[c].syms
    ensures var r := FirstVisible(cfg, u, c, syms);
            if r.Some? then r.value in syms && SymVis(cfg, u, r.value) != 0
            else forall m :: m in syms ==> SymVis(cfg, u, m) == 0
    decreases |syms|
  {
    hide WellFormed, SymVis;
    if syms != [] {
      FirstVisibleFound(cfg, u, c, syms[1..]);
    }
  }

  lemma {:induction false} DefaultFound(cfg: Config, u: User, c: nat, ds: seq<ChoiceDefault>)
    requires WellFormed(cfg) && c in cfg.choices && forall d :: d in ds ==> d in cfg.choices[c].defaults
    ensures var r := DefaultFrom(cfg, u, c, ds);
            if r.Some? then r.value in cfg.choices[c].syms && SymVis(cfg, u, r.value) != 0
            else forall m :: m in cfg.choices[c].syms ==> SymVis(cfg, u, m) == 0
    decreases |ds|
  {
    hide WellFormed, SymVis, Eval, FirstVisible, ChoiceExprs;
    if ds == [] {
      FirstVisibleFound(cfg, u, c, cfg.choices[c].syms);
    } else {
      ChoiceFacts(cfg, c);
      assert ds[0] in cfg.choices[c].defaults;
      DefaultFound(cfg, u, c, ds[1..]);
    }
  }

  /** In y mode, a visible symbol is selected as soon as there is one. */
  lemma SelectionFound(cfg: Config, u: User, c: nat)
    requires WellFormed(cfg) && c in cfg.choices && Mode(cfg, u, c) == 2
    ensures var r := Selection(cfg, u, c);
            if r.Some? then r.value in cfg.choices[c].syms && SymVis(cfg, u, r.value) != 0
            else forall m :: m in cfg.choices[c].syms ==> SymVis(cfg, u, m) == 0
  {
    hide WellFormed, SymVis, DefaultFrom, Mode;
    DefaultFound(cfg, u, c, cfg.choices[c].defaults);
  }

  lemma MemberValue(cfg: Config, u: User, c: nat, m: string)
    requires WellFormed(cfg) && c in cfg.choices && m in cfg.choices[c].syms
    ensures m in cfg.syms && cfg.syms[m].choice == Some(c)
    ensures SymTri(cfg, u, m) == CombineInChoice(SymVis(cfg, u, m), u.TriOf(m), Selection(cfg, u, c) == Some(m))
  {}

  /** The user gave the symbol m or y. */
  predicate Wanted(u: User, m: string) { m in u.val && (u.val[m] == UserTri(1) || u.val[m] == UserTri(2)) }

  /** Exactly one symbol is y in y mode if any is visible; in m mode those are m that are visible and
      wanted, and the others n; in n mode all are n. */
  lemma ChoiceExclusive(cfg: Config, u: User, c: nat)
    requires WellFormed(cfg) && c in cfg.choices && PromptsInside(cfg, c)
    ensures var syms := cfg.choices[c].syms;
            && (Mode(cfg, u, c) == 2 && (exists m :: m in syms && SymVis(cfg, u, m) != 0) ==>
                  exists m :: m in syms && SymTri(cfg, u, m).val == 2 &&
                              forall x :: x in syms && x != m ==> SymTri(cfg, u, x).val == 0)
            && (Mode(cfg, u, c) == 2 && !(exists m :: m in syms && SymVis(cfg, u, m) != 0) ==>
                  forall m :: m in syms ==> SymTri(cfg, u, m).val == 0)
            && (Mode(cfg, u, c) == 1 ==>
                  forall m :: m in syms ==>
                                SymTri(cfg, u, m).val == if SymVis(cfg, u, m) != 0 && Wanted(u, m) then 1 else 0)
            && (Mode(cfg, u, c) == 0 ==> forall m :: m in syms ==> SymTri(cfg, u, m).val == 0)
            && forall m :: m in syms ==> (SymTri(cfg, u, m).write <==> SymVis(cfg, u, m) != 0)
  {
    hide WellFormed, SymVis, Mode, SymTri, PromptsInside;
    var syms := cfg.choices[c].syms;
    forall m | m in syms
      ensures SymTri(cfg, u, m) == CombineInChoice(SymVis(cfg, u, m), u.TriOf(m), Selection(cfg, u, c) == Some(m))
      ensures Mode(cfg, u, c) == 0 ==> SymVis(cfg, u, m) == 0
      ensures Mode(cfg, u, c) == 2 ==> SymVis(cfg, u, m) != 1
      ensures Mode(cfg, u, c) == 1 ==> SymVis(cfg, u, m) != 2
    {
      MemberValue(cfg, u, c, m);
      MemberVisibility(cfg, u, c, m);
    }
    assert Mode(cfg, u, c) != 2 ==> Selection(cfg, u, c) == None;
    if Mode(cfg, u, c) == 2 {
      SelectionFound(cfg, u, c);
      if Selection(cfg, u, c).Some? {
        assert SymTri(cfg, u, Selection(cfg, u, c).value).val == 2;
      }
    }
  }

  /** `u'` differs from `u` at most in what is assigned to `m` and selected in `c`. */
  ghost predicate OnlyIn(u: User, u': User, c: nat, m: string) {
    && u'.mode == u.mode && (forall x :: x != c ==> u'.SelectionOf(x) == u.SelectionOf(x))
    && forall x :: x != m ==> u'.TriOf(x) == u.TriOf(x) && u'.TextOf(x) == u.TextOf(x)
  }

  /** Assigning to a member leaves the mode and the visibility of all members alone. */
  lemma MembersStay(cfg: Config, u: User, u': User, c: nat, m: string)
    requires WellFormed(cfg) && c in cfg.choices && m in cfg.choices[c].syms && OnlyIn(u, u', c, m)
    ensures Mode(cfg, u', c) == Mode(cfg, u, c)
    ensures forall x :: x in cfg.choices[c].syms ==> SymVis(cfg, u', x) == SymVis(cfg, u, x)
  {
    hide WellFormed, SymTri, SymVis, ChoiceVis, Selection, Mode, Unnoticed, OnlyIn;
    var l := SelLevel(cfg, c);
    MembersRank(cfg, c);
    MemberUnnoticed(cfg, u, u', c, m);
    UnnoticedIsSame(cfg, u, u', l);
    forall x | x in cfg.choices[c].syms ensures SymVis(cfg, u', x) == SymVis(cfg, u, x) {
      assert Sym(x) in Defined(cfg);
      assert Vis(cfg, u', Sym(x)) == Vis(cfg, u, Sym(x));
    }
    assert Cho(c) in Defined(cfg);
    assert Vis(cfg, u', Cho(c)) == Vis(cfg, u, Cho(c));
    if cfg.choices[c].kind == Tristate { ModulesStay(cfg, u, u', l); }
    assert u'.mode == u.mode by { OnlyInMode(u, u', c, m); }
    ModeMeans(cfg, u, c);
    ModeMeans(cfg, u', c);
  }

  lemma OnlyInMode(u: User, u': User, c: nat, m: string)
    requires OnlyIn(u, u', c, m)
    ensures u'.mode == u.mode
  {}

  lemma MemberUnnoticed(cfg: Config, u: User, u': User, c: nat, m: string)
    requires WellFormed(cfg) && c in cfg.choices && m in cfg.choices[c].syms && OnlyIn(u, u', c, m)
    ensures Unnoticed(cfg, u, u', SelLevel(cfg, c))
  {
    hide WellFormed, SymTriWith, SymStrWith, SelectionWith, ModeWith;
    MembersRank(cfg, c);
  }

  lemma MembersRank(cfg: Config, c: nat)
    requires WellFormed(cfg) && c in cfg.choices
    ensures forall x :: x in cfg.choices[c].syms ==> x in cfg.syms && cfg.rank(Sym(x)) == cfg.rank(Cho(c))
    ensures cfg.choices[c].kind == Tristate ==> cfg.rank(Sym(MODULES)) < cfg.rank(Cho(c))
  {
    assert ChoiceOk(cfg, c) && forall x :: x in cfg.choices[c].syms ==> SymOk(cfg, x);
  }

  lemma ModulesStay(cfg: Config, u: User, u': User, l: nat)
    requires WellFormed(cfg) && SameBefore(cfg, u, u', l) && TriLevel(cfg, MODULES) < l
    ensures Modules(cfg, u') == Modules(cfg, u)
  {
    hide WellFormed;
    assert SymTri(cfg, u, MODULES) == SymTriWith(cfg, u, MODULES, u.TriOf(MODULES));
    assert SymTri(cfg, u', MODULES) == SymTriWith(cfg, u', MODULES, u'.TriOf(MODULES));
  }

  /** In m mode, giving n, m or y to a visible member makes it n, m or m, and changes no other member. */
  lemma MemberTakes(cfg: Config, u: User, c: nat, m: string, t: Tri)
    requires WellFormed(cfg) && c in cfg.choices && m in cfg.choices[c].syms && PromptsInside(cfg, c)
    requires Mode(cfg, u, c) == 1 && SymVis(cfg, u, m) != 0
    ensures var u' := SetSym(cfg, Session(u, {}), m, UserTri(t)).0.u;
            && Mode(cfg, u', c) == 1 && SymTri(cfg, u', m).val == (if t == 0 then 0 else 1)
            && forall x :: x in cfg.choices[c].syms && x != m ==> SymTri(cfg, u', x).val == SymTri(cfg, u, x).val
  {
    hide WellFormed, PromptsInside, SymTri, SymVis, Selection, Mode;
    MemberValue(cfg, u, c, m);
    MemberVisibility(cfg, u, c, m);
    var u' := SetSym(cfg, Session(u, {}), m, UserTri(t)).0.u;
    assert u'.val == u.val[m := UserTri(t)] && u'.mode == u.mode;
    MembersStay(cfg, u, u', c, m);
    ChoiceExclusive(cfg, u, c);
    ChoiceExclusive(cfg, u', c);
  }

  /** In y mode, giving y to a visible member makes it y and all others n. */
  lemma MemberSelected(cfg: Config, u: User, c: nat, m: string)
    requires WellFormed(cfg) && c in cfg.choices && m in cfg.choices[c].syms && PromptsInside(cfg, c)
    requires Mode(cfg, u, c) == 2 && SymVis(cfg, u, m) != 0
    ensures var u' := SetSym(cfg, Session(u, {}), m, UserTri(2)).0.u;
            && Mode(cfg, u', c) == 2 && SymTri(cfg, u', m).val == 2
            && forall x :: x in cfg.choices[c].syms && x != m ==> SymTri(cfg, u', x).val == 0
  {
    hide WellFormed, PromptsInside, SymTri, SymVis, Selection, Mode;
    MemberValue(cfg, u, c, m);
    MemberLogical(cfg, c, m);
    var u' := SetSym(cfg, Session(u, {}), m, UserTri(2)).0.u;
    assert u'.mode == u.mode && u'.SelectionOf(c) == Some(m);
    MembersStay(cfg, u, u', c, m);
    SelectionMeans(cfg, u', c);
    forall x | x in cfg.choices[c].syms ensures SymTri(cfg, u', x).val == if x == m then 2 else 0 {
      MemberValue(cfg, u', c, x);
      MemberVisibility(cfg, u', c, x);
    }
  }

  lemma MemberLogical(cfg: Config, c: nat, m: string)
    requires WellFormed(cfg) && c in cfg.choices && m in cfg.choices[c].syms
    ensures m in cfg.syms && cfg.syms[m].kind.Logical()
  {
    assert ChoiceOk(cfg, c);
  }

  /** For a visible member, y is what can be assigned in y mode, and it sticks. In m mode exactly the
      assignable values stick if and only if nothing selects the member or implies it to y. */
  lemma MemberAssignable(cfg: Config, u: User, c: nat, m: string)
    requires WellFormed(cfg) && c in cfg.choices && m in cfg.choices[c].syms && PromptsInside(cfg, c)
    requires SymVis(cfg, u, m) != 0
    ensures Mode(cfg, u, c) == 2 ==> SymAssignable(cfg, u, m) == [2] && Sticks(cfg, u, m, 2)
    ensures m in cfg.syms
    ensures Mode(cfg, u, c) == 1 ==>
              ((forall v: Tri :: Sticks(cfg, u, m, v) <==> v in SymAssignable(cfg, u, m)) <==>
               Eval(cfg, u, cfg.syms[m].revDep) == 0 && Eval(cfg, u, cfg.syms[m].weakRevDep) != 2)
  {
    hide WellFormed, PromptsInside, SymTri, SymVis, Mode, Eval, SetSym, ActsAsBool;
    MemberLogical(cfg, c, m);
    MemberIn(cfg, c, m);
    MemberVisibility(cfg, u, c, m);
    if Mode(cfg, u, c) == 2 { MemberSelected(cfg, u, c, m); }
    if Mode(cfg, u, c) == 1 {
      forall v: Tri ensures Sticks(cfg, u, m, v) <==> v != 2 { MemberTakes(cfg, u, c, m, v); }
      assert Sticks(cfg, u, m, 0) && Sticks(cfg, u, m, 1) && !Sticks(cfg, u, m, 2);
    }
  }

  // Assignable modes

  /** `c` is in mode `t` after set_value(t). */
  ghost predicate ModeSticks(cfg: Config, u: User, c: nat, t: Tri)
    requires WellFormed(cfg)
  {
    Mode(cfg, SetMode(cfg, Session(u, {}), c, t).0.u, c) == t
  }

  /** A choice cannot affect its own bounds. */
  lemma OwnMode(cfg: Config, u: User, u': User, c: nat)
    requires WellFormed(cfg) && c in cfg.choices && u'.val == u.val && u'.sel == u.sel
    requires forall x :: x != c ==> u'.ModeOf(x) == u.ModeOf(x)
    ensures ChoiceVis(cfg, u', c) == ChoiceVis(cfg, u, c)
    ensures cfg.choices[c].kind == Tristate ==> Modules(cfg, u') == Modules(cfg, u)
  {
    var l := ChoiceVisLevel(cfg, c);
    hide WellFormed, Justified, SymTriWith, SymStrWith, SelectionWith, ModeWith, ChoiceVis, UpTo;
    assert Unnoticed(cfg, u, u', l);
    UpToJustified(cfg, u, u', l);
    UnnoticedIsSame(cfg, u, u', l);
    MembersRank(cfg, c);
    if cfg.choices[c].kind == Tristate { ModulesStay(cfg, u, u', l); }
    VisTotal(cfg, u, u', l, Cho(c));
    NotYet(cfg, u, c);
    OneMoreVis(cfg, u', UpTo(cfg, u, l), c, ChoiceVis(cfg, u, c));
  }

  lemma NotYet(cfg: Config, u: User, c: nat)
    requires WellFormed(cfg)
    ensures Cho(c) !in UpTo(cfg, u, ChoiceVisLevel(cfg, c)).vis
  {}

  lemma OneMoreVis(cfg: Config, u: User, k: Cache, c: nat, v: Tri)
    requires WellFormed(cfg) && Justified(cfg, u, k) && TryVis(cfg, u, k, Cho(c)) == Some(v)
    requires Cho(c) in k.vis ==> k.vis[Cho(c)] == v
    ensures ChoiceVis(cfg, u, c) == v
  {
    hide TryVis, TryTri, TryStr, TrySelection, TryAssignable, WellFormed, Inputs;
    var k' := k.(vis := k.vis[Cho(c) := v]);
    forall j ensures Keeps(u, k, u, k', j) {}
    CarryVis(cfg, u, k, u, k', Cho(c));
    GrowthKeeps(cfg, u, k, k');
    ChoiceVisSound(cfg, u, k', c);
  }

  /** For a visible choice, exactly the assignable modes stick. */
  lemma ModesExact(cfg: Config, u: User, c: nat)
    requires WellFormed(cfg) && c in cfg.choices && ChoiceVis(cfg, u, c) != 0
    ensures forall t: Tri :: ModeSticks(cfg, u, c, t) <==> t in ChoiceAssignable(cfg, u, c)
  {
    hide WellFormed, ChoiceVis, Modules, Mode;
    ChoiceFacts(cfg, c);
    BoolChoiceVis(cfg, u, c);
    forall t: Tri ensures ModeSticks(cfg, u, c, t) <==> t in ChoiceAssignable(cfg, u, c) {
      var u' := SetMode(cfg, Session(u, {}), c, t).0.u;
      OwnMode(cfg, u, u', c);
      ModeMeans(cfg, u', c);
    }
  }

  lemma BoolChoiceVis(cfg: Config, u: User, c: nat)
    requires WellFormed(cfg) && c in cfg.choices
    ensures ChoiceVis(cfg, u, c) == 1 ==> cfg.choices[c].kind == Tristate && Modules(cfg, u) != 0
  {}

  // What is forgotten

  /** After unset_value() a symbol is what it is without an assignment, and a choice has neither the mode nor
      the selection it was given. */
  lemma Unset(cfg: Config, u: User, s: string, c: nat)
    requires WellFormed(cfg) && s in cfg.syms && c in cfg.choices
    ensures cfg.syms[s].kind.Logical() && cfg.syms[s].choice.None? ==>
              SymTri(cfg, UnsetSym(u, s), s) == SymTriWith(cfg, u, s, None)
    ensures !cfg.syms[s].kind.Logical() ==> SymStr(cfg, UnsetSym(u, s), s) == SymStrWith(cfg, u, s, None)
    ensures var u' := UnsetChoice(u, c);
            && c !in u'.mode && c !in u'.sel && u'.val == u.val
            && forall x :: x != c ==> u'.ModeOf(x) == u.ModeOf(x) && u'.SelectionOf(x) == u.SelectionOf(x)
  {
    hide WellFormed, SymTri, SymStr, SymTriWith, SymStrWith;
    var u' := UnsetSym(u, s);
    assert OnlyAt(u, u', s) && u'.TriOf(s) == None && u'.TextOf(s) == None;
    if cfg.syms[s].kind.Logical() && cfg.syms[s].choice.None? { OwnChange(cfg, u, u', s); }
    if !cfg.syms[s].kind.Logical() { OwnText(cfg, u, u', s); }
  }

  // What is accepted

  /** Which values set_value() accepts, by type; n, m and y may be spelled as text. */
  lemma Accepts(cfg: Config, st: Session, s: string, v: UserValue)
    requires UserOk(cfg, st.u)
    ensures SetSym(cfg, st, s, v).1 <==>
            s in cfg.syms &&
            match cfg.syms[s].kind
            case Bool => v == UserTri(0) || v == UserTri(2) || v == UserText("n") || v == UserText("y")
            case Tristate => v.UserTri? || v == UserText("n") || v == UserText("m") || v == UserText("y")
            case Str => v.UserText?
            case Key => v.UserText?
            case Int => v.UserText? && cfg.parse(v.s, 10).Some?
            case Hex => v.UserText? && cfg.parse(v.s, 16).Some? && cfg.parse(v.s, 16).value >= 0
            case Unknown => false
    ensures !SetSym(cfg, st, s, v).1 ==> SetSym(cfg, st, s, v).0 == st
  {
    assert "n" != "m" && "n" != "y" && "m" != "y";
  }

  /** Spelled as text is the same as given as a value. */
  lemma SpelledValues(cfg: Config, st: Session, s: string)
    requires s in cfg.syms && cfg.syms[s].kind.Logical()
    ensures SetSym(cfg, st, s, UserText("n")) == SetSym(cfg, st, s, UserTri(0))
    ensures SetSym(cfg, st, s, UserText("m")) == SetSym(cfg, st, s, UserTri(1))
    ensures SetSym(cfg, st, s, UserText("y")) == SetSym(cfg, st, s, UserTri(2))
  {
    assert "n" != "m" && "n" != "y" && "m" != "y";
  }

  /** A visible string or key reads as what was typed. A visible number does if that is not empty and inside
      the range in force, if any. */
  lemma TypedIsRead(cfg: Config, u: User, s: string, text: string)
    requires WellFormed(cfg) && UserOk(cfg, u) && s in cfg.syms && !cfg.syms[s].kind.Logical() && SymVis(cfg, u, s) != 0
    requires SetSym(cfg, Session(u, {}), s, UserText(text)).1
    requires cfg.syms[s].kind.Numeric() ==>
               text != "" &&
               var range := SymRange(cfg, u, s);
               range.Some? ==> range.value.0 <= Number(cfg, text, cfg.syms[s].kind.Base()) <= range.value.1
    ensures SymStr(cfg, SetSym(cfg, Session(u, {}), s, UserText(text)).0.u, s).val == text
  {
    hide WellFormed, UserOk, SetSym, SymVis, SymStr, SymRange, PickStr, OnlyAt;
    var u' := SetSym(cfg, Session(u, {}), s, UserText(text)).0.u;
    TextIsStored(cfg, u, s, text);
    OwnText(cfg, u, u', s);
  }

  lemma TextIsStored(cfg: Config, u: User, s: string, text: string)
    requires WellFormed(cfg) && UserOk(cfg, u) && s in cfg.syms && !cfg.syms[s].kind.Logical()
    requires SetSym(cfg, Session(u, {}), s, UserText(text)).1
    ensures var u' := SetSym(cfg, Session(u, {}), s, UserText(text)).0.u;
            u'.TextOf(s) == Some(text) && OnlyAt(u, u', s) && cfg.syms[s].kind != Unknown
  {
    hide WellFormed;
    NotAMember(cfg, s);
  }

  lemma NotAMember(cfg: Config, s: string)
    requires WellFormed(cfg) && s in cfg.syms && !cfg.syms[s].kind.Logical()
    ensures cfg.syms[s].choice.None?
  {
    assert SymOk(cfg, s);
  }

  // Assignable values

  /** `s` reads `v` after set_value(v). */
  ghost predicate Sticks(cfg: Config, u: User, s: string, v: Tri)
    requires WellFormed(cfg)
  {
    SymTri(cfg, SetSym(cfg, Session(u, {}), s, UserTri(v)).0.u, s).val == v
  }

  /** The one case in which assignable() is off: visible and selected to m, but implied to y. */
  predicate Miscounted(cfg: Config, u: User, s: string)
    requires WellFormed(cfg) && s in cfg.syms
  {
    SymVis(cfg, u, s) == 1 && Eval(cfg, u, cfg.syms[s].revDep) == 1 && Eval(cfg, u, cfg.syms[s].weakRevDep) == 2
  }

  /** What `s` reads after set_value(v), in terms of the state before. */
  lemma AfterSet(cfg: Config, u: User, s: string, v: Tri)
    requires WellFormed(cfg) && UserOk(cfg, u)
    requires s in cfg.syms && cfg.syms[s].kind.Logical() && cfg.syms[s].choice.None?
    ensures var u' := SetSym(cfg, Session(u, {}), s, UserTri(v)).0.u;
            SymTri(cfg, u', s) ==
              if cfg.syms[s].kind == Bool && v == 1 then SymTri(cfg, u, s) else SymTriWith(cfg, u, s, Some(v))
  {
    var u' := SetSym(cfg, Session(u, {}), s, UserTri(v)).0.u;
    hide WellFormed, SymTriWith;
    OwnChange(cfg, u, u', s);
  }

  /** For a visible symbol outside choices, exactly the assignable values stick, for every value,
      if and only if the symbol is not miscounted. */
  lemma AssignableExact(cfg: Config, u: User, s: string)
    requires WellFormed(cfg) && UserOk(cfg, u)
    requires s in cfg.syms && cfg.syms[s].kind.Logical() && cfg.syms[s].choice.None? && SymVis(cfg, u, s) != 0
    ensures (forall v: Tri :: Sticks(cfg, u, s, v) <==> v in SymAssignable(cfg, u, s)) <==> !Miscounted(cfg, u, s)
  {
    BoolVisibility(cfg, u, s);
    hide WellFormed, SymVis, Eval, ActsAsBool, PickTri, SetSym, UserOk, Combine, AssignableFrom;
    var d := cfg.syms[s];
    var vis, rev := SymVis(cfg, u, s), Eval(cfg, u, d.revDep);
    var weak, direct := Eval(cfg, u, d.weakRevDep), Eval(cfg, u, d.directDep);
    var asBool, picked := ActsAsBool(cfg, u, s), PickTri(cfg, u, s);
    forall v: Tri
      ensures (Sticks(cfg, u, s, v) <==> v in SymAssignable(cfg, u, s)) <==>
              (v in AssignableFrom(vis, false, rev, weak, asBool) <==>
               !(d.kind == Bool && v == 1) && Combine(vis, Some(v), picked, weak, direct, rev, asBool).val == v)
    {
      AfterSet(cfg, u, s, v);
      assert SymTri(cfg, u, s) == SymTriWith(cfg, u, s, u.TriOf(s));
      BoolNeverM(vis, u.TriOf(s), picked, weak, direct, rev);
    }
    forall v: Tri { WeighedExactly(vis, picked, weak, direct, rev, asBool, v); }
    if Miscounted(cfg, u, s) {
      assert !(Sticks(cfg, u, s, 1) <==> 1 in SymAssignable(cfg, u, s));
    }
  }

  lemma BoolNeverM(vis: Tri, user: Option<Tri>, picked: Option<(Tri, Tri)>, weak: Tri, direct: Tri, rev: Tri)
    ensures Combine(vis, user, picked, weak, direct, rev, true).val != 1
  {}

  lemma WeighedExactly(vis: Tri, picked: Option<(Tri, Tri)>, weak: Tri, direct: Tri, rev: Tri, asBool: bool, v: Tri)
    requires vis != 0 && (asBool ==> vis != 1)
    ensures vis == 1 && rev == 1 && weak == 2 ==>
              AssignableFrom(vis, false, rev, weak, asBool) == [1] &&
              Combine(vis, Some(v), picked, weak, direct, rev, asBool).val == 2
    ensures !(vis == 1 && rev == 1 && weak == 2) ==>
              (v in AssignableFrom(vis, false, rev, weak, asBool) <==>
               Combine(vis, Some(v), picked, weak, direct, rev, asBool).val == v)
    ensures asBool ==> 1 !in AssignableFrom(vis, false, rev, weak, asBool)
  {}

  /** Something that acts as a bool is never m-visible. */
  lemma BoolVisibility(cfg: Config, u: User, s: string)
    requires WellFormed(cfg) && s in cfg.syms && cfg.syms[s].choice.None?
    ensures cfg.syms[s].kind == Bool ==> ActsAsBool(cfg, u, s)
    ensures ActsAsBool(cfg, u, s) ==> SymVis(cfg, u, s) != 1
  {}
}
