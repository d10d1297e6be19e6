/** Cached values, and what justifies them.

    A `Try...` function evaluates exactly as the code does, with the same short cuts, but looks up
    the values of other items in a cache and gives up (`None`) when one it needs is not there. A
    cache is justified when every cached value is what its `Try...` function computes from the other
    cached values. That is the invariant behind the selective invalidation: it is local, it is
    weaker than "a cached item has all its inputs cached" (which short cuts break), and it implies
    that every cached value equals the cache-free one. */
module KconfigCaches {
  import opened Basics
  import opened KconfigModel
  import opened KconfigValues

  datatype Cache = Cache(
    vis: map<Item, Tri>,
    tri: map<string, Computed>,
    str: map<string, Text>,
    asg: map<Item, seq<Tri>>,
    sel: map<nat, Option<string>>)

  const EMPTY := Cache(map[], map[], map[], map[], map[])

  function Get<K, V>(m: map<K, V>, key: K): Option<V> {
    if key in m then Some(m[key]) else None
  }

  /** Symbols that are not logical count as n, cached or not. */
  function CachedTri(cfg: Config, k: Cache, s: string): Option<Tri> {
    if s !in cfg.syms || !cfg.syms[s].kind.Logical() then Some(0)
    else if s in k.tri then Some(k.tri[s].val) else None
  }

  function TryAtomTri(cfg: Config, u: User, k: Cache, a: Atom): Option<Tri> {
    match a
    case Nmy(t) => Some(t)
    case Quoted(_) => Some(0)
    case Ref(Sym(s)) => CachedTri(cfg, k, s)
    case Ref(Cho(c)) => TryMode(cfg, u, k, c)
  }

  function TryAtomStr(cfg: Config, u: User, k: Cache, a: Atom): Option<string> {
    match a
    case Nmy(t) => Some(TriText(t))
    case Quoted(q) => Some(q)
    case Ref(Sym(s)) =>
      if KindOf(cfg, a) == Unknown then Some(s)
      else if s in k.str then Some(k.str[s].val) else None
    case Ref(Cho(c)) => var m :- TryMode(cfg, u, k, c); Some(TriText(m))
  }

  function TryAtomNum(cfg: Config, u: User, k: Cache, a: Atom): Option<Option<int>> {
    if KindOf(cfg, a).Logical() then
      var t :- TryAtomTri(cfg, u, k, a); Some(Some(t))
    else
      var s :- TryAtomStr(cfg, u, k, a); Some(cfg.parse(s, KindOf(cfg, a).Base()))
  }

  function TryStrCmp(cfg: Config, u: User, k: Cache, x: Atom, y: Atom): Option<int> {
    var sx :- TryAtomStr(cfg, u, k, x);
    var sy :- TryAtomStr(cfg, u, k, y);
    Some(StrCmp(sx, sy))
  }

  function TryCompare(cfg: Config, u: User, k: Cache, x: Atom, y: Atom): Option<int> {
    var kx, ky := KindOf(cfg, x), KindOf(cfg, y);
    if kx == ky == Str || kx == ky == Key then TryStrCmp(cfg, u, k, x, y)
    else
      var nx :- TryAtomNum(cfg, u, k, x);
      if nx.None? then TryStrCmp(cfg, u, k, x, y)
      else
        var ny :- TryAtomNum(cfg, u, k, y);
        if ny.None? then TryStrCmp(cfg, u, k, x, y) else Some(nx.value - ny.value)
  }

  function TryEval(cfg: Config, u: User, k: Cache, e: Expr): Option<Tri> {
    match e
    case Leaf(a) => TryAtomTri(cfg, u, k, a)
    case And(l, r) =>
      var v :- TryEval(cfg, u, k, l);
      if v == 0 then Some(0) else var w :- TryEval(cfg, u, k, r); Some(Min(v, w))
    case Or(l, r) =>
      var v :- TryEval(cfg, u, k, l);
      if v == 2 then Some(2) else var w :- TryEval(cfg, u, k, r); Some(Max(v, w))
    case Not(f) =>
      var v :- TryEval(cfg, u, k, f); Some(2 - v)
    case Rel(op, x, y) =>
      var cmp :- TryCompare(cfg, u, k, x, y); Some(Holds(op, cmp))
  }

  function TryMaxEval(cfg: Config, u: User, k: Cache, es: seq<Expr>): Option<Tri> {
    if es == [] then Some(0)
    else
      var v :- TryMaxEval(cfg, u, k, es[..|es| - 1]);
      var w :- TryEval(cfg, u, k, es[|es| - 1]);
      Some(Max(v, w))
  }

  function TryModules(cfg: Config, k: Cache): Option<Tri> {
    CachedTri(cfg, k, MODULES)
  }

  /** Whether a choice currently acts as a bool one. */
  function TryChoiceActsAsBool(cfg: Config, k: Cache, d: ChoiceDef): Option<bool> {
    if d.kind != Tristate then Some(d.kind == Bool)
    else var m :- TryModules(cfg, k); Some(m == 0)
  }

  function TryChoiceVis(cfg: Config, u: User, k: Cache, c: nat): Option<Tri> {
    if c !in cfg.choices then Some(0) else
    var d := cfg.choices[c];
    var vis :- TryMaxEval(cfg, u, k, d.prompts);
    if vis != 1 then Some(vis)
    else if d.kind != Tristate then Some(2)
    else var b :- TryChoiceActsAsBool(cfg, k, d); Some(if b then 2 else 1)
  }

  function TryMode(cfg: Config, u: User, k: Cache, c: nat): Option<Tri> {
    if c !in cfg.choices then Some(0)
    else if Cho(c) !in k.vis then None
    else
      var d := cfg.choices[c];
      var base: Tri := if d.optional then 0 else 1;
      var wanted := if c in u.mode then Max(base, u.mode[c]) else base;
      var val := Min(wanted, k.vis[Cho(c)]);
      if val != 1 then Some(val)
      else var b :- TryChoiceActsAsBool(cfg, k, d); Some(if b then 2 else 1)
  }

  function TryActsAsBool(cfg: Config, u: User, k: Cache, d: SymDef): Option<bool> {
    if d.kind != Tristate then Some(d.kind == Bool)
    else if d.choice.Some? then
      var m :- TryMode(cfg, u, k, d.choice.value);
      if m == 2 then Some(true) else var q :- TryModules(cfg, k); Some(q == 0)
    else var q :- TryModules(cfg, k); Some(q == 0)
  }

  /** The last step of a visibility: m counts as y unless the symbol is (still) tristate. */
  function TryPromote(cfg: Config, u: User, k: Cache, d: SymDef, vis: Tri): Option<Tri> {
    if vis != 1 then Some(vis)
    else if d.kind != Tristate then Some(2)
    else var b :- TryActsAsBool(cfg, u, k, d); Some(if b then 2 else 1)
  }

  function TrySymVis(cfg: Config, u: User, k: Cache, s: string): Option<Tri> {
    if s !in cfg.syms then Some(0) else
    var d := cfg.syms[s];
    var vis :- TryMaxEval(cfg, u, k, d.prompts);
    if d.choice.Some? && d.choice.value in cfg.choices
       && cfg.choices[d.choice.value].kind == Tristate && d.kind != Tristate then
      var m :- TryMode(cfg, u, k, d.choice.value);
      if m != 2 then Some(0) else TryPromote(cfg, u, k, d, vis)
    else if d.choice.Some? && d.kind == Tristate && vis == 1 then
      var m :- TryMode(cfg, u, k, d.choice.value);
      if m == 2 then Some(0) else TryPromote(cfg, u, k, d, vis)
    else TryPromote(cfg, u, k, d, vis)
  }

  function TryVis(cfg: Config, u: User, k: Cache, i: Item): Option<Tri> {
    match i
    case Sym(s) => TrySymVis(cfg, u, k, s)
    case Cho(c) => TryChoiceVis(cfg, u, k, c)
  }

  function TryFirstVisible(k: Cache, syms: seq<string>): Option<Option<string>> {
    if syms == [] then Some(None)
    else
      var v :- Get(k.vis, Sym(syms[0]));
      if v != 0 then Some(Some(syms[0])) else TryFirstVisible(k, syms[1..])
  }

  function TryDefaultFrom(cfg: Config, u: User, k: Cache, ds: seq<ChoiceDefault>, syms: seq<string>)
    : Option<Option<string>>
  {
    if ds == [] then TryFirstVisible(k, syms)
    else
      var v :- TryEval(cfg, u, k, ds[0].cond);
      if v == 0 then TryDefaultFrom(cfg, u, k, ds[1..], syms)
      else
        var w :- Get(k.vis, Sym(ds[0].sym));
        if w != 0 then Some(Some(ds[0].sym)) else TryDefaultFrom(cfg, u, k, ds[1..], syms)
  }

  function TrySelection(cfg: Config, u: User, k: Cache, c: nat): Option<Option<string>> {
    if c !in cfg.choices then Some(None) else
    var d := cfg.choices[c];
    var m :- TryMode(cfg, u, k, c);
    if m != 2 then Some(None)
    else if c in u.sel && u.sel[c] in d.syms then
      var v :- Get(k.vis, Sym(u.sel[c]));
      if v != 0 then Some(Some(u.sel[c])) else TryDefaultFrom(cfg, u, k, d.defaults, d.syms)
    else TryDefaultFrom(cfg, u, k, d.defaults, d.syms)
  }

  function TryPick(cfg: Config, u: User, k: Cache, ds: seq<Default>): Option<Option<(Expr, Tri)>> {
    if ds == [] then Some(None)
    else
      var c :- TryEval(cfg, u, k, ds[0].cond);
      if c != 0 then Some(Some((ds[0].value, c))) else TryPick(cfg, u, k, ds[1..])
  }

  function TryPickTri(cfg: Config, u: User, k: Cache, ds: seq<Default>): Option<Option<(Tri, Tri)>> {
    var p :- TryPick(cfg, u, k, ds);
    if p.None? then Some(None) else var v :- TryEval(cfg, u, k, p.value.0); Some(Some((v, p.value.1)))
  }

  function TryPickStr(cfg: Config, u: User, k: Cache, ds: seq<Default>): Option<Option<string>> {
    var p :- TryPick(cfg, u, k, ds);
    if p.None? then Some(None)
    else if !p.value.0.Leaf? then None
    else var v :- TryAtomStr(cfg, u, k, p.value.0.a); Some(Some(v))
  }

  /** What the user, the defaults and the implies say about a logical symbol outside choices. What
      does not matter is not read: defaults and implies when the user's value counts, the direct
      dependencies unless the symbol is implied. */
  function TryWeigh(cfg: Config, u: User, k: Cache, s: string, d: SymDef, vis: Tri): Option<Computed> {
    if vis != 0 && u.TriOf(s).Some? then Some(Computed(Min(u.TriOf(s).value, vis), true))
    else
      var p :- TryPickTri(cfg, u, k, d.defaults);
      var fromDefault: Tri := if p.Some? then Min(p.value.0, p.value.1) else 0;
      var weak :- TryEval(cfg, u, k, d.weakRevDep);
      var direct :- if weak != 0 then TryEval(cfg, u, k, d.directDep) else Some(0);
      if direct != 0 then Some(Computed(Max(weak, fromDefault), true))
      else Some(Computed(fromDefault, vis != 0 || fromDefault != 0))
  }

  /** The value of a logical symbol outside choices. The type is only read if the value comes out
      as m. */
  function TryPlainTri(cfg: Config, u: User, k: Cache, s: string, d: SymDef, vis: Tri): Option<Computed> {
    var weighed :- TryWeigh(cfg, u, k, s, d, vis);
    var rev :- TryEval(cfg, u, k, d.revDep);
    var selected := Max(rev, weighed.val);
    var write := weighed.write || rev != 0;
    if selected != 1 then Some(Computed(selected, write))
    else
      var b :- TryActsAsBool(cfg, u, k, d);
      if b then Some(Computed(2, write))
      else
        var weak :- TryEval(cfg, u, k, d.weakRevDep);
        Some(Computed(if weak == 2 then 2 else 1, write))
  }

  function TryTri(cfg: Config, u: User, k: Cache, s: string): Option<Computed> {
    if s !in cfg.syms || !cfg.syms[s].kind.Logical() then Some(Computed(0, false)) else
    var d := cfg.syms[s];
    var vis :- Get(k.vis, Sym(s));
    if d.choice.None? then TryPlainTri(cfg, u, k, s, d, vis)
    else if vis == 2 then
      var sel :- Get(k.sel, d.choice.value);
      Some(CombineInChoice(vis, u.TriOf(s), sel == Some(s)))
    else Some(CombineInChoice(vis, u.TriOf(s), false))
  }

  function TryRange(cfg: Config, u: User, k: Cache, rs: seq<Range>, base: nat): Option<Option<(int, int)>> {
    if rs == [] then Some(None)
    else
      var c :- TryEval(cfg, u, k, rs[0].cond);
      if c != 0 then
        var low :- TryAtomStr(cfg, u, k, rs[0].low);
        var high :- TryAtomStr(cfg, u, k, rs[0].high);
        Some(Some((NumOrZero(cfg, low, base), NumOrZero(cfg, high, base))))
      else TryRange(cfg, u, k, rs[1..], base)
  }

  function TryNumeric(cfg: Config, u: User, k: Cache, s: string, d: SymDef, vis: Tri): Option<Text> {
    var range :- TryRange(cfg, u, k, d.ranges, d.kind.Base());
    var user := u.TextOf(s);
    if vis != 0 && user.Some? && user.value != "" && Inside(range, NumOrZero(cfg, user.value, d.kind.Base())) then
      Some(Text(user.value, true))
    else
      var p :- TryPickStr(cfg, u, k, d.defaults);
      Some(CombineNumeric(cfg, d.kind.Base(), vis, None, range, p))
  }

  function TryText(cfg: Config, u: User, k: Cache, s: string, d: SymDef, vis: Tri): Option<Text> {
    if vis != 0 && u.TextOf(s).Some? then Some(Text(u.TextOf(s).value, true))
    else var p :- TryPickStr(cfg, u, k, d.defaults); Some(CombineText(vis, None, p))
  }

  function TryStr(cfg: Config, u: User, k: Cache, s: string): Option<Text> {
    if s !in cfg.syms || cfg.syms[s].kind == Unknown then Some(Text(s, false)) else
    var d := cfg.syms[s];
    if d.kind.Logical() then
      var t :- Get(k.tri, s); Some(Text(TriText(t.val), t.write))
    else
      var vis :- Get(k.vis, Sym(s));
      var t :- if d.kind.Numeric() then TryNumeric(cfg, u, k, s, d, vis) else TryText(cfg, u, k, s, d, vis);
      Some(Text(t.val, t.write && !d.hidden))
  }

  function TryAssignable(cfg: Config, u: User, k: Cache, i: Item): Option<seq<Tri>> {
    match i
    case Sym(s) =>
      if s !in cfg.syms || !cfg.syms[s].kind.Logical() then Some([]) else
      var d := cfg.syms[s];
      var vis :- Get(k.vis, i);
      if vis == 0 then Some([])
      else
        var rev :- TryEval(cfg, u, k, d.revDep);
        if vis == 2 && d.choice.Some? then Some([2])
        else if rev == 2 then Some([2])
        else if vis == 1 && rev == 1 then Some([1])
        else
          var asBool :- if vis == 2 then TryActsAsBool(cfg, u, k, d) else Some(false);
          var weak :- if asBool then Some(0) else TryEval(cfg, u, k, d.weakRevDep);
          Some(AssignableFrom(vis, false, rev, weak, asBool))
    case Cho(c) =>
      if c !in cfg.choices then Some([]) else
      var d := cfg.choices[c];
      var vis :- Get(k.vis, i);
      if vis != 2 then Some(ChoiceAssignableFrom(vis, d.optional, false))
      else var b :- TryChoiceActsAsBool(cfg, k, d); Some(ChoiceAssignableFrom(vis, d.optional, b))
  }

  ghost predicate Justified(cfg: Config, u: User, k: Cache) {
    && (forall i :: i in k.vis ==> TryVis(cfg, u, k, i) == Some(k.vis[i]))
    && (forall s :: s in k.tri ==> TryTri(cfg, u, k, s) == Some(k.tri[s]))
    && (forall s :: s in k.str ==> TryStr(cfg, u, k, s) == Some(k.str[s]))
    && (forall c :: c in k.sel ==> TrySelection(cfg, u, k, c) == Some(k.sel[c]))
    && (forall i :: i in k.asg ==> TryAssignable(cfg, u, k, i) == Some(k.asg[i]))
  }

  /** Every cached value is the cache-free one. */
  ghost predicate Coherent(cfg: Config, u: User, k: Cache)
    requires WellFormed(cfg)
  {
    && (forall i :: i in k.vis ==> k.vis[i] == Vis(cfg, u, i))
    && (forall s :: s in k.tri ==> k.tri[s] == SymTri(cfg, u, s))
    && (forall s :: s in k.str ==> k.str[s] == SymStr(cfg, u, s))
    && (forall c :: c in k.sel ==> k.sel[c] == Selection(cfg, u, c))
    && (forall i :: i in k.asg ==> k.asg[i] == Assignable(cfg, u, i))
  }
}
