/** The cache-free meaning of a configuration: every value, visibility, mode and selection as a
    recursive function of the user's assignments alone. */
module KconfigValues {
  import opened Basics
  import opened KconfigModel

  /** A logical value together with "gets a .config entry". */
  datatype Computed = Computed(val: Tri, write: bool)

  /** A string value together with "gets a .config entry". */
  datatype Text = Text(val: string, write: bool)

  function AtomTri(cfg: Config, u: User, a: Atom): Tri
    requires WellFormed(cfg)
    decreases AtomLevel(cfg, a), 2
  {
    match a
    case Nmy(t) => t
    case Quoted(_) => 0
    case Ref(Sym(s)) => SymTri(cfg, u, s).val
    case Ref(Cho(c)) => Mode(cfg, u, c)
  }

  function AtomStr(cfg: Config, u: User, a: Atom): string
    requires WellFormed(cfg)
    decreases AtomLevel(cfg, a), 2
  {
    match a
    case Nmy(t) => TriText(t)
    case Quoted(q) => q
    case Ref(Sym(s)) => SymStr(cfg, u, s).val
    case Ref(Cho(c)) => TriText(Mode(cfg, u, c))
  }

  /** `None` is int() raising ValueError. */
  function AtomNum(cfg: Config, u: User, a: Atom): Option<int>
    requires WellFormed(cfg)
    decreases AtomLevel(cfg, a), 3
  {
    if KindOf(cfg, a).Logical() then Some(AtomTri(cfg, u, a))
    else cfg.parse(AtomStr(cfg, u, a), KindOf(cfg, a).Base())
  }

  /** Relations compare two strings (or two keys) as text and everything else as numbers if
      possible. */
  function Compare(cfg: Config, u: User, x: Atom, y: Atom): int
    requires WellFormed(cfg)
    decreases MaxNat(AtomLevel(cfg, x), AtomLevel(cfg, y)), 4
  {
    var kx, ky := KindOf(cfg, x), KindOf(cfg, y);
    if !(kx == ky == Str || kx == ky == Key)
       && AtomNum(cfg, u, x).Some? && AtomNum(cfg, u, y).Some? then
      AtomNum(cfg, u, x).value - AtomNum(cfg, u, y).value
    else
      StrCmp(AtomStr(cfg, u, x), AtomStr(cfg, u, y))
  }

  /** Minimum for &&, maximum for ||. */
  function Eval(cfg: Config, u: User, e: Expr): Tri
    requires WellFormed(cfg)
    decreases Level(cfg, e), 5, e
  {
    match e
    case Leaf(a) => AtomTri(cfg, u, a)
    case And(l, r) => Min(Eval(cfg, u, l), Eval(cfg, u, r))
    case Or(l, r) => Max(Eval(cfg, u, l), Eval(cfg, u, r))
    case Not(f) => 2 - Eval(cfg, u, f)
    case Rel(op, x, y) => Holds(op, Compare(cfg, u, x, y))
  }

  function MaxEval(cfg: Config, u: User, es: seq<Expr>, ghost bound: nat): Tri
    requires WellFormed(cfg) && Below(cfg, es, bound)
    decreases bound, 6, |es|
  {
    if es == [] then 0
    else Max(MaxEval(cfg, u, es[..|es| - 1], bound), Eval(cfg, u, es[|es| - 1]))
  }

  function Modules(cfg: Config, u: User): Tri
    requires WellFormed(cfg)
    decreases TriLevel(cfg, MODULES), 2
  {
    SymTri(cfg, u, MODULES).val
  }

  function ChoiceVis(cfg: Config, u: User, c: nat): Tri
    requires WellFormed(cfg)
    decreases ChoiceVisLevel(cfg, c), 0
  {
    if c !in cfg.choices then 0 else
    var d := cfg.choices[c];
    assert Below(cfg, d.prompts, 8 * cfg.rank(Cho(c)));
    var vis := MaxEval(cfg, u, d.prompts, 8 * cfg.rank(Cho(c)));
    // m visibility counts as y unless the choice is (still) tristate
    if vis == 1 && !(d.kind == Tristate && Modules(cfg, u) != 0) then 2 else vis
  }

  /** The choice's tri_value. */
  function Mode(cfg: Config, u: User, c: nat): Tri
    requires WellFormed(cfg)
    decreases ModeLevel(cfg, c), 1
  {
    ModeWith(cfg, u, c, u.ModeOf(c))
  }

  // The `With` functions take what the user assigned to the item itself as an argument.

  function ModeWith(cfg: Config, u: User, c: nat, user: Option<Tri>): Tri
    requires WellFormed(cfg)
    decreases ModeLevel(cfg, c), 0
  {
    if c !in cfg.choices then 0 else
    var d := cfg.choices[c];
    var base: Tri := if d.optional then 0 else 1;
    var wanted := if user.Some? then Max(base, user.value) else base;
    var val := Min(wanted, ChoiceVis(cfg, u, c));
    if val == 1 && (d.kind == Bool || Modules(cfg, u) == 0) then 2 else val
  }

  /** Whether a symbol of kind Bool or Tristate currently acts as a bool. */
  predicate ActsAsBool(cfg: Config, u: User, s: string)
    requires WellFormed(cfg) && s in cfg.syms
    decreases SymVisLevel(cfg, s), 0
  {
    var d := cfg.syms[s];
    || d.kind == Bool
    || (d.kind == Tristate
        && ((d.choice.Some? && Mode(cfg, u, d.choice.value) == 2) || Modules(cfg, u) == 0))
  }

  function SymVis(cfg: Config, u: User, s: string): Tri
    requires WellFormed(cfg)
    decreases SymVisLevel(cfg, s), 1
  {
    if s !in cfg.syms then 0 else
    var d := cfg.syms[s];
    assert Below(cfg, d.prompts, 8 * cfg.rank(Sym(s)) + 3);
    var vis := MaxEval(cfg, u, d.prompts, 8 * cfg.rank(Sym(s)) + 3);
    if d.choice.Some? && cfg.choices[d.choice.value].kind == Tristate && d.kind != Tristate
       && Mode(cfg, u, d.choice.value) != 2 then 0
    else if d.choice.Some? && d.kind == Tristate && vis == 1 && Mode(cfg, u, d.choice.value) == 2 then 0
    else if vis == 1 && (d.kind != Tristate || ActsAsBool(cfg, u, s)) then 2
    else vis
  }

  function FirstVisible(cfg: Config, u: User, c: nat, syms: seq<string>): Option<string>
    requires WellFormed(cfg) && c in cfg.choices
    requires forall m :: m in syms ==> m in cfg.choices[c].syms
    decreases SelLevel(cfg, c), 0, |syms|
  {
    if syms == [] then None
    else (
      assert syms[0] in cfg.choices[c].syms;
      if SymVis(cfg, u, syms[0]) != 0 then Some(syms[0])
      else FirstVisible(cfg, u, c, syms[1..])
    )
  }

  function DefaultFrom(cfg: Config, u: User, c: nat, ds: seq<ChoiceDefault>): Option<string>
    requires WellFormed(cfg) && c in cfg.choices
    requires forall d :: d in ds ==> d in cfg.choices[c].defaults
    decreases SelLevel(cfg, c), 1, |ds|
  {
    if ds == [] then FirstVisible(cfg, u, c, cfg.choices[c].syms)
    else (
      assert ds[0] in cfg.choices[c].defaults;
      assert ds[0].cond in ChoiceExprs(cfg.choices[c]) by { ChoiceCondListed(cfg.choices[c], ds[0]); }
      if Eval(cfg, u, ds[0].cond) != 0 && SymVis(cfg, u, ds[0].sym) != 0 then Some(ds[0].sym)
      else DefaultFrom(cfg, u, c, ds[1..])
    )
  }

  /** The y-mode selection: the user's if visible, else the first default that applies, else the
      first visible symbol. */
  function Selection(cfg: Config, u: User, c: nat): Option<string>
    requires WellFormed(cfg)
    decreases SelLevel(cfg, c), 3
  {
    SelectionWith(cfg, u, c, u.SelectionOf(c))
  }

  function SelectionWith(cfg: Config, u: User, c: nat, user: Option<string>): Option<string>
    requires WellFormed(cfg)
    decreases SelLevel(cfg, c), 2
  {
    if c !in cfg.choices || Mode(cfg, u, c) != 2 then None
    else if user.Some? && user.value in cfg.choices[c].syms && SymVis(cfg, u, user.value) != 0 then user
    else DefaultFrom(cfg, u, c, cfg.choices[c].defaults)
  }

  /** The first default whose condition holds, with the value of that condition. */
  function Pick(cfg: Config, u: User, ds: seq<Default>, ghost bound: nat): Option<(Expr, Tri)>
    requires WellFormed(cfg)
    requires forall d :: d in ds ==> Level(cfg, d.cond) <= bound
    ensures Pick(cfg, u, ds, bound).Some? ==> exists d :: d in ds && d.value == Pick(cfg, u, ds, bound).value.0
    decreases bound, 6, |ds|
  {
    if ds == [] then None
    else
      assert ds[0] in ds;
      var c := Eval(cfg, u, ds[0].cond);
      if c != 0 then Some((ds[0].value, c))
      else Pick(cfg, u, ds[1..], bound)
  }

  function ActiveRange(cfg: Config, u: User, rs: seq<Range>, base: nat, ghost bound: nat): Option<(int, int)>
    requires WellFormed(cfg)
    requires forall r :: r in rs ==>
               Level(cfg, r.cond) <= bound && AtomLevel(cfg, r.low) <= bound && AtomLevel(cfg, r.high) <= bound
    decreases bound, 6, |rs|
  {
    if rs == [] then None
    else
      assert rs[0] in rs;
      if Eval(cfg, u, rs[0].cond) != 0 then
        Some((NumOrZero(cfg, AtomStr(cfg, u, rs[0].low), base), NumOrZero(cfg, AtomStr(cfg, u, rs[0].high), base)))
      else ActiveRange(cfg, u, rs[1..], base, bound)
  }

  function NumOrZero(cfg: Config, s: string, base: nat): int {
    match cfg.parse(s, base) case Some(k) => k case None => 0
  }

  predicate Inside(range: Option<(int, int)>, k: int) {
    range.Some? ==> range.value.0 <= k <= range.value.1
  }

  function Clamp(cfg: Config, base: nat, range: Option<(int, int)>, val: string): string {
    var k := NumOrZero(cfg, val, base);
    if range.Some? && k < range.value.0 then cfg.show(range.value.0, base)
    else if range.Some? && k > range.value.1 then cfg.show(range.value.1, base)
    else val
  }

  /** The logical value of a symbol that is in no choice, once everything it reads is known.
      `user` is only looked at for visible symbols. */
  function Combine(vis: Tri, user: Option<Tri>, picked: Option<(Tri, Tri)>, weak: Tri, direct: Tri, rev: Tri,
                   asBool: bool): Computed {
    var fromUser := vis != 0 && user.Some?;
    var fromDefault: Tri := if picked.Some? then Min(picked.value.0, picked.value.1) else 0;
    var implied := weak != 0 && direct != 0;
    var base := if fromUser then Min(user.value, vis) else if implied then Max(weak, fromDefault) else fromDefault;
    var selected := Max(rev, base);
    Computed(if selected == 1 && (asBool || weak == 2) then 2 else selected,
             vis != 0 || (!fromUser && (fromDefault != 0 || implied)) || rev != 0)
  }

  /** A choice symbol: y if selected in y mode, m if wanted in m mode. */
  function CombineInChoice(vis: Tri, user: Option<Tri>, selected: bool): Computed {
    Computed(if vis == 2 then (if selected then 2 else 0)
             else if vis != 0 && user.Some? && user.value != 0 then 1 else 0,
             vis != 0)
  }

  /** The value and the condition of the first default that applies. */
  function PickTri(cfg: Config, u: User, s: string): Option<(Tri, Tri)>
    requires WellFormed(cfg) && s in cfg.syms
    decreases SymVisLevel(cfg, s), 0
  {
    ExprsListed(cfg, s);
    var p := Pick(cfg, u, cfg.syms[s].defaults, 8 * cfg.rank(Sym(s)) + 3);
    if p.Some? then Some((Eval(cfg, u, p.value.0), p.value.1)) else None
  }

  function SymTri(cfg: Config, u: User, s: string): Computed
    requires WellFormed(cfg)
    decreases TriLevel(cfg, s), 1
  {
    SymTriWith(cfg, u, s, u.TriOf(s))
  }

  function SymTriWith(cfg: Config, u: User, s: string, user: Option<Tri>): Computed
    requires WellFormed(cfg)
    decreases TriLevel(cfg, s), 0
  {
    if s !in cfg.syms || !cfg.syms[s].kind.Logical() then Computed(0, false) else
    var d := cfg.syms[s];
    var vis := SymVis(cfg, u, s);
    if d.choice.Some? then
      CombineInChoice(vis, user, Selection(cfg, u, d.choice.value) == Some(s))
    else
      ExprsListed(cfg, s);
      Combine(vis, user, PickTri(cfg, u, s),
              Eval(cfg, u, d.weakRevDep), Eval(cfg, u, d.directDep), Eval(cfg, u, d.revDep),
              ActsAsBool(cfg, u, s))
  }

  function CombineNumeric(cfg: Config, base: nat, vis: Tri, user: Option<string>, range: Option<(int, int)>,
                          picked: Option<string>): Text {
    if vis != 0 && user.Some? && user.value != "" && Inside(range, NumOrZero(cfg, user.value, base)) then
      Text(user.value, true)
    else
      Text(Clamp(cfg, base, range, if picked.Some? then picked.value else ""), vis != 0 || picked.Some?)
  }

  function CombineText(vis: Tri, user: Option<string>, picked: Option<string>): Text {
    if vis != 0 && user.Some? then Text(user.value, true)
    else Text(if picked.Some? then picked.value else "", vis != 0 || picked.Some?)
  }

  /** The text of the first default that applies. */
  function PickStr(cfg: Config, u: User, s: string): Option<string>
    requires WellFormed(cfg) && s in cfg.syms && !cfg.syms[s].kind.Logical()
    decreases SymVisLevel(cfg, s), 0
  {
    ExprsListed(cfg, s);
    var p := Pick(cfg, u, cfg.syms[s].defaults, 8 * cfg.rank(Sym(s)) + 3);
    if p.Some? then (assert SymOk(cfg, s); Some(AtomStr(cfg, u, p.value.0.a))) else None
  }

  function SymRange(cfg: Config, u: User, s: string): Option<(int, int)>
    requires WellFormed(cfg) && s in cfg.syms
    decreases SymVisLevel(cfg, s), 0
  {
    ExprsListed(cfg, s);
    ActiveRange(cfg, u, cfg.syms[s].ranges, cfg.syms[s].kind.Base(), 8 * cfg.rank(Sym(s)) + 3)
  }

  function SymStr(cfg: Config, u: User, s: string): Text
    requires WellFormed(cfg)
    decreases StrLevel(cfg, s), 1
  {
    SymStrWith(cfg, u, s, u.TextOf(s))
  }

  function SymStrWith(cfg: Config, u: User, s: string, user: Option<string>): Text
    requires WellFormed(cfg)
    decreases StrLevel(cfg, s), 0
  {
    if s !in cfg.syms || cfg.syms[s].kind == Unknown then Text(s, false) else
    var d := cfg.syms[s];
    if d.kind.Logical() then
      Text(TriText(SymTri(cfg, u, s).val), SymTri(cfg, u, s).write)
    else
      var vis := SymVis(cfg, u, s);
      var t := if d.kind.Numeric() then
                 CombineNumeric(cfg, d.kind.Base(), vis, user, SymRange(cfg, u, s), PickStr(cfg, u, s))
               else CombineText(vis, user, PickStr(cfg, u, s));
      Text(t.val, t.write && !d.hidden)
  }

  /** The values set_value() can currently bring about, in increasing order. */
  function SymAssignable(cfg: Config, u: User, s: string): seq<Tri>
    requires WellFormed(cfg)
  {
    if s !in cfg.syms || !cfg.syms[s].kind.Logical() then [] else
    var d := cfg.syms[s];
    AssignableFrom(SymVis(cfg, u, s), d.choice.Some?, Eval(cfg, u, d.revDep),
                   Eval(cfg, u, d.weakRevDep), ActsAsBool(cfg, u, s))
  }

  function AssignableFrom(vis: Tri, inChoice: bool, rev: Tri, weak: Tri, asBool: bool): seq<Tri> {
    if vis == 0 then []
    else if vis == 2 then
      if inChoice then [2]
      else if rev == 0 then (if asBool || weak == 2 then [0, 2] else [0, 1, 2])
      else if rev == 2 then [2]
      else if asBool || weak == 2 then [2] else [1, 2]
    else if rev == 0 then (if weak != 2 then [0, 1] else [0, 2])
    else if rev == 2 then [2]
    else [1]
  }

  function ChoiceAssignable(cfg: Config, u: User, c: nat): seq<Tri>
    requires WellFormed(cfg)
  {
    if c !in cfg.choices then [] else
    var d := cfg.choices[c];
    ChoiceAssignableFrom(ChoiceVis(cfg, u, c), d.optional, d.kind == Bool || Modules(cfg, u) == 0)
  }

  function ChoiceAssignableFrom(vis: Tri, optional: bool, asBool: bool): seq<Tri> {
    if vis == 0 then []
    else if vis == 2 then
      if optional then (if asBool then [0, 2] else [0, 1, 2]) else (if asBool then [2] else [1, 2])
    else if optional then [0, 1] else [1]
  }

  function Vis(cfg: Config, u: User, i: Item): Tri
    requires WellFormed(cfg)
  {
    match i
    case Sym(s) => SymVis(cfg, u, s)
    case Cho(c) => ChoiceVis(cfg, u, c)
  }

  function Assignable(cfg: Config, u: User, i: Item): seq<Tri>
    requires WellFormed(cfg)
  {
    match i
    case Sym(s) => SymAssignable(cfg, u, s)
    case Cho(c) => ChoiceAssignable(cfg, u, c)
  }

  // Where the expressions of a property sit in the list of all expressions

  lemma ChoiceCondListed(d: ChoiceDef, cd: ChoiceDefault)
    requires cd in d.defaults
    ensures cd.cond in ChoiceExprs(d)
  {
    var k :| 0 <= k < |d.defaults| && d.defaults[k] == cd;
    assert ChoiceExprs(d)[|d.prompts| + k] == cd.cond;
  }

  lemma DefaultListed(d: SymDef, x: Default)
    requires x in d.defaults
    ensures x.value in SymExprs(d) && x.cond in SymExprs(d)
  {
    var k :| 0 <= k < |d.defaults| && d.defaults[k] == x;
    assert SymExprs(d)[|d.prompts| + k] == x.value;
    assert SymExprs(d)[|d.prompts| + |d.defaults| + k] == x.cond;
  }

  lemma RangeListed(d: SymDef, x: Range)
    requires x in d.ranges
    ensures Leaf(x.low) in SymExprs(d) && Leaf(x.high) in SymExprs(d) && x.cond in SymExprs(d)
  {
    var k :| 0 <= k < |d.ranges| && d.ranges[k] == x;
    var n := |d.prompts| + 2 * |d.defaults|;
    assert SymExprs(d)[n + k] == Leaf(x.low);
    assert SymExprs(d)[n + |d.ranges| + k] == Leaf(x.high);
    assert SymExprs(d)[n + 2 * |d.ranges| + k] == x.cond;
  }

  lemma DepsListed(d: SymDef)
    ensures d.revDep in SymExprs(d) && d.weakRevDep in SymExprs(d) && d.directDep in SymExprs(d)
  {}

  lemma ExprsListed(cfg: Config, s: string)
    requires WellFormed(cfg) && s in cfg.syms
    ensures var d := cfg.syms[s]; var bound := 8 * cfg.rank(Sym(s)) + 3;
            && (forall x :: x in d.defaults ==> Level(cfg, x.value) <= bound && Level(cfg, x.cond) <= bound)
            && (forall x :: x in d.ranges ==>
                  AtomLevel(cfg, x.low) <= bound && AtomLevel(cfg, x.high) <= bound && Level(cfg, x.cond) <= bound)
            && Level(cfg, d.revDep) <= bound && Level(cfg, d.weakRevDep) <= bound && Level(cfg, d.directDep) <= bound
  {
    var d := cfg.syms[s];
    var es := SymExprs(d);
    forall x | x in d.defaults
      ensures x.value in es && x.cond in es
    {
      DefaultListed(d, x);
    }
    forall x | x in d.ranges
      ensures Leaf(x.low) in es && Leaf(x.high) in es && x.cond in es
    {
      RangeListed(d, x);
    }
    DepsListed(d);
    assert SymOk(cfg, s);
  }

  // What well-formedness says about one item

  lemma SymFacts(cfg: Config, s: string)
    requires WellFormed(cfg) && s in cfg.syms
    ensures var d := cfg.syms[s]; var r := cfg.rank(Sym(s));
            && Below(cfg, d.prompts, 8 * r + 3)
            && (d.kind == Tristate ==> cfg.rank(Sym(MODULES)) < r)
            && (d.choice.Some? ==> d.choice.value in cfg.choices && cfg.rank(Cho(d.choice.value)) == r)
            && (!d.kind.Logical() ==> forall x :: x in d.defaults ==> x.value.Leaf?)
  {}

  lemma ChoiceFacts(cfg: Config, c: nat)
    requires WellFormed(cfg) && c in cfg.choices
    ensures var d := cfg.choices[c]; var r := cfg.rank(Cho(c));
            && Below(cfg, d.prompts, 8 * r)
            && (d.kind == Tristate ==> cfg.rank(Sym(MODULES)) < r)
            && (d.kind == Bool || d.kind == Tristate)
            && (forall x :: x in d.defaults ==> x.sym in d.syms)
  {}
}
