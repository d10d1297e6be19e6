/** The static part of a parsed and finalized Kconfig tree: symbols, choices, their properties and
    the expressions in them, together with the user's assignments. Nothing here changes at run time
    except values of type `User`. */
module KconfigModel {
  import opened Basics

  /** n, m and y are 0, 1 and 2. */
  type Tri = t: int | 0 <= t <= 2

  function Min(a: Tri, b: Tri): Tri { if a <= b then a else b }

  function Max(a: Tri, b: Tri): Tri { if a <= b then b else a }

  datatype Kind = Unknown | Bool | Tristate | Str | Key | Int | Hex {
    predicate Logical() { Bool? || Tristate? }
    predicate Numeric() { Int? || Hex? }
    /** The base handed to int() when a value of this kind is read as a number. */
    function Base(): nat { if Int? then 10 else if Hex? then 16 else 0 }
  }

  datatype Item = Sym(name: string) | Cho(id: nat)

  /** A leaf of an expression. `Nmy` are the constants n, m and y, `Quoted` all other constants. */
  datatype Atom = Nmy(t: Tri) | Quoted(text: string) | Ref(item: Item)

  datatype RelOp = Eq | Ne | Lt | Le | Gt | Ge

  datatype Expr =
    | Leaf(a: Atom)
    | And(l: Expr, r: Expr)
    | Or(l: Expr, r: Expr)
    | Not(e: Expr)
    | Rel(op: RelOp, x: Atom, y: Atom)

  const N := Leaf(Nmy(0))
  const Y := Leaf(Nmy(2))

  datatype Default = Default(value: Expr, cond: Expr)
  datatype Range = Range(low: Atom, high: Atom, cond: Expr)
  datatype ChoiceDefault = ChoiceDefault(sym: string, cond: Expr)

  /** A defined symbol. `prompts` holds the conditions of the definitions that have a prompt;
      `hidden` is set for environment symbols and the defconfig_list symbol. */
  datatype SymDef = SymDef(
    kind: Kind,
    prompts: seq<Expr>,
    defaults: seq<Default>,
    ranges: seq<Range>,
    revDep: Expr,
    weakRevDep: Expr,
    directDep: Expr,
    choice: Option<nat>,
    hidden: bool)

  datatype ChoiceDef = ChoiceDef(
    kind: Kind,
    prompts: seq<Expr>,
    defaults: seq<ChoiceDefault>,
    syms: seq<string>,
    optional: bool)

  /** `parse(s, b)` is int(s, b), `None` standing for ValueError; `show(k, b)` is str(k) or hex(k).
      Both are left arbitrary. `rank` orders the items by dependency (see `WellFormed`);
      `symOrder` and `choiceOrder` list symbols and choices once each in definition order. */
  datatype Config = Config(
    syms: map<string, SymDef>,
    choices: map<nat, ChoiceDef>,
    symOrder: seq<string>,
    choiceOrder: seq<nat>,
    parse: (string, nat) -> Option<int>,
    show: (int, nat) -> string,
    rank: Item -> nat)

  const MODULES := "MODULES"

  datatype UserValue = UserTri(t: Tri) | UserText(s: string)

  /** What the user assigned: symbol values, choice modes and choice selections. */
  datatype User = User(
    val: map<string, UserValue>,
    mode: map<nat, Tri>,
    sel: map<nat, string>)
  {
    function TriOf(s: string): Option<Tri> {
      if s in val && val[s].UserTri? then Some(val[s].t) else None
    }

    function TextOf(s: string): Option<string> {
      if s in val && val[s].UserText? then Some(val[s].s) else None
    }

    function ModeOf(c: nat): Option<Tri> {
      if c in mode then Some(mode[c]) else None
    }

    function SelectionOf(c: nat): Option<string> {
      if c in sel then Some(sel[c]) else None
    }
  }

  const NO_USER := User(map[], map[], map[])

  function KindOf(cfg: Config, a: Atom): Kind {
    match a
    case Nmy(_) => Tristate
    case Quoted(_) => Unknown
    case Ref(Sym(s)) => if s in cfg.syms then cfg.syms[s].kind else Unknown
    case Ref(Cho(c)) => if c in cfg.choices then cfg.choices[c].kind else Unknown
  }

  function TriText(t: Tri): string {
    if t == 0 then "n" else if t == 1 then "m" else "y"
  }

  /** strcmp(): -1, 0 or 1. */
  function StrCmp(a: string, b: string): int {
    if a == [] && b == [] then 0
    else if a == [] then -1
    else if b == [] then 1
    else if a[0] < b[0] then -1
    else if a[0] > b[0] then 1
    else StrCmp(a[1..], b[1..])
  }

  function Holds(op: RelOp, cmp: int): Tri {
    var holds := match op
      case Eq => cmp == 0
      case Ne => cmp != 0
      case Lt => cmp < 0
      case Le => cmp <= 0
      case Gt => cmp > 0
      case Ge => cmp >= 0;
    if holds then 2 else 0
  }

  // Where the dependencies lie

  function AtomItems(a: Atom): set<Item> {
    match a
    case Ref(i) => {i}
    case _ => {}
  }

  function Items(e: Expr): set<Item> {
    match e
    case Leaf(a) => AtomItems(a)
    case And(l, r) => Items(l) + Items(r)
    case Or(l, r) => Items(l) + Items(r)
    case Not(f) => Items(f)
    case Rel(_, x, y) => AtomItems(x) + AtomItems(y)
  }

  function ItemsOfAll(es: seq<Expr>): set<Item> {
    set e, i | e in es && i in Items(e) :: i
  }

  /** Every expression among the properties of a symbol. */
  function SymExprs(d: SymDef): seq<Expr> {
    d.prompts +
    seq(|d.defaults|, k requires 0 <= k < |d.defaults| => d.defaults[k].value) +
    seq(|d.defaults|, k requires 0 <= k < |d.defaults| => d.defaults[k].cond) +
    seq(|d.ranges|, k requires 0 <= k < |d.ranges| => Leaf(d.ranges[k].low)) +
    seq(|d.ranges|, k requires 0 <= k < |d.ranges| => Leaf(d.ranges[k].high)) +
    seq(|d.ranges|, k requires 0 <= k < |d.ranges| => d.ranges[k].cond) +
    [d.revDep, d.weakRevDep, d.directDep]
  }

  function ChoiceExprs(d: ChoiceDef): seq<Expr> {
    d.prompts + seq(|d.defaults|, k requires 0 <= k < |d.defaults| => d.defaults[k].cond)
  }

  /** The items whose change may change `i`: what _build_dep() and _add_choice_deps() register. */
  function Inputs(cfg: Config, i: Item): set<Item> {
    match i
    case Sym(s) => if s in cfg.syms then ItemsOfAll(SymExprs(cfg.syms[s])) else {}
    case Cho(c) =>
      if c in cfg.choices then
        ItemsOfAll(ChoiceExprs(cfg.choices[c])) + (set m | m in cfg.choices[c].syms :: Sym(m))
      else {}
  }

  /** Defined symbols and choices. */
  function Defined(cfg: Config): set<Item> {
    (set s | s in cfg.syms :: Sym(s)) + (set c | c in cfg.choices :: Cho(c))
  }

  // Dependency order

  // The stages in which the fields of items of rank r are determined.
  function ChoiceVisLevel(cfg: Config, c: nat): nat { 8 * cfg.rank(Cho(c)) + 2 }
  function ModeLevel(cfg: Config, c: nat): nat { 8 * cfg.rank(Cho(c)) + 3 }
  function SymVisLevel(cfg: Config, s: string): nat { 8 * cfg.rank(Sym(s)) + 4 }
  function SelLevel(cfg: Config, c: nat): nat { 8 * cfg.rank(Cho(c)) + 5 }
  function TriLevel(cfg: Config, s: string): nat { 8 * cfg.rank(Sym(s)) + 6 }
  function StrLevel(cfg: Config, s: string): nat { 8 * cfg.rank(Sym(s)) + 7 }

  function VisLevel(cfg: Config, i: Item): nat {
    match i
    case Sym(s) => SymVisLevel(cfg, s)
    case Cho(c) => ChoiceVisLevel(cfg, c)
  }

  function AtomLevel(cfg: Config, a: Atom): nat {
    match a
    case Ref(Sym(s)) => StrLevel(cfg, s) + 1
    case Ref(Cho(c)) => ModeLevel(cfg, c)
    case _ => 0
  }

  function Level(cfg: Config, e: Expr): nat {
    match e
    case Leaf(a) => AtomLevel(cfg, a)
    case And(l, r) => MaxNat(Level(cfg, l), Level(cfg, r))
    case Or(l, r) => MaxNat(Level(cfg, l), Level(cfg, r))
    case Not(f) => Level(cfg, f)
    case Rel(_, x, y) => MaxNat(AtomLevel(cfg, x), AtomLevel(cfg, y))
  }

  function MaxNat(a: nat, b: nat): nat { if a <= b then b else a }

  ghost predicate Below(cfg: Config, es: seq<Expr>, bound: nat) {
    forall e :: e in es ==> Level(cfg, e) <= bound
  }

  /** `rank` witnesses that dependencies are acyclic once each choice is contracted with its
      symbols: a property refers to items of smaller rank only, or to a choice of the same rank;
      and MODULES, which every tristate item reads, comes before all tristate items. */
  ghost predicate SymOk(cfg: Config, s: string)
    requires s in cfg.syms
  {
    var d := cfg.syms[s];
    var r := cfg.rank(Sym(s));
    && Below(cfg, SymExprs(d), 8 * r + 3)
    && (d.kind == Tristate ==> cfg.rank(Sym(MODULES)) < r)
    && (!d.kind.Logical() ==> forall k :: 0 <= k < |d.defaults| ==> d.defaults[k].value.Leaf?)
    && (d.choice.Some? ==>
          && d.choice.value in cfg.choices
          && s in cfg.choices[d.choice.value].syms
          && cfg.rank(Cho(d.choice.value)) == r
          && Cho(d.choice.value) in Inputs(cfg, Sym(s)))
  }

  ghost predicate ChoiceOk(cfg: Config, c: nat)
    requires c in cfg.choices
  {
    var d := cfg.choices[c];
    var r := cfg.rank(Cho(c));
    && Below(cfg, ChoiceExprs(d), 8 * r)
    && d.kind.Logical()
    && (d.kind == Tristate ==> cfg.rank(Sym(MODULES)) < r)
    && (forall m :: m in d.syms ==>
          m in cfg.syms && cfg.syms[m].choice == Some(c) && cfg.syms[m].kind.Logical())
    && (forall k :: 0 <= k < |d.defaults| ==> d.defaults[k].sym in d.syms)
  }

  /** The definition orders list exactly what is defined, without repetition. */
  ghost predicate Ordered(cfg: Config) {
    && (forall s :: s in cfg.symOrder <==> s in cfg.syms)
    && (forall c :: c in cfg.choiceOrder <==> c in cfg.choices)
    && (forall i, j :: 0 <= i < j < |cfg.symOrder| ==> cfg.symOrder[i] != cfg.symOrder[j])
    && (forall i, j :: 0 <= i < j < |cfg.choiceOrder| ==> cfg.choiceOrder[i] != cfg.choiceOrder[j])
  }

  ghost predicate WellFormed(cfg: Config) {
    && (forall s :: s in cfg.syms ==> SymOk(cfg, s))
    && (forall c :: c in cfg.choices ==> ChoiceOk(cfg, c))
  }

  // What set_value() accepts

  predicate ValidFor(cfg: Config, kind: Kind, v: UserValue) {
    match kind
    case Bool => v == UserTri(0) || v == UserTri(2)
    case Tristate => v.UserTri?
    case Str => v.UserText?
    case Key => v.UserText?
    case Int => v.UserText? && cfg.parse(v.s, 10).Some?
    case Hex => v.UserText? && cfg.parse(v.s, 16).Some? && cfg.parse(v.s, 16).value >= 0
    case Unknown => false
  }

  /** User states that assignments can produce. */
  ghost predicate UserOk(cfg: Config, u: User) {
    && (forall s :: s in u.val ==> s in cfg.syms && ValidFor(cfg, cfg.syms[s].kind, u.val[s]))
    && (forall c :: c in u.mode ==> c in cfg.choices && ValidFor(cfg, cfg.choices[c].kind, UserTri(u.mode[c])))
    && (forall c :: c in u.sel ==> c in cfg.choices && u.sel[c] in cfg.choices[c].syms)
  }
}
