/** The value engine as it runs: values are computed on demand, cached per item, and invalidated
    along the dependency graph when the user changes something. */
module KconfigEngine {
  import opened Basics
  import opened KconfigModel
  import opened KconfigValues
  import opened KconfigCaches
  import opened KconfigCoherence
  import opened KconfigInvalidation
  import opened KconfigAssignments
  import opened KconfigText

  /** The dependents recorded for `d`. */
  function Of(graph: map<Item, set<Item>>, d: Item): set<Item> {
    if d in graph then graph[d] else {}
  }

  /** `j` is a dependent of `i` that was cached. */
  predicate Follows(graph: map<Item, set<Item>>, cached: set<Item>, i: Item, j: Item) {
    j in Of(graph, i) && j in cached
  }

  ghost predicate IsChain(graph: map<Item, set<Item>>, cached: set<Item>, path: seq<Item>) {
    path != [] && forall k :: 0 <= k < |path| - 1 ==> Follows(graph, cached, path[k], path[k + 1])
  }

  /** `j` is reached from `i` through dependents that were cached. */
  ghost predicate Downstream(graph: map<Item, set<Item>>, cached: set<Item>, i: Item, j: Item) {
    exists path :: IsChain(graph, cached, path) && path[0] == i && path[|path| - 1] == j
  }

  /** Only what is downstream of `i` is gone, unless MODULES is. */
  ghost predicate OnlyDownstream(graph: map<Item, set<Item>>, cached: set<Item>, i: Item, gone: set<Item>) {
    (forall j :: j in gone ==> Downstream(graph, cached, i, j)) || Downstream(graph, cached, i, Sym(MODULES))
  }

  lemma Itself(graph: map<Item, set<Item>>, cached: set<Item>, i: Item, gone: set<Item>)
    ensures Downstream(graph, cached, i, i) && OnlyDownstream(graph, cached, i, {i})
    ensures i == Sym(MODULES) ==> OnlyDownstream(graph, cached, i, gone)
  {
    assert IsChain(graph, cached, [i]);
  }

  lemma OneStepUp(graph: map<Item, set<Item>>, cached: set<Item>, cached': set<Item>, i: Item, item: Item, j: Item)
    requires item in Of(graph, i) && item in cached && cached' <= cached && Downstream(graph, cached', item, j)
    ensures Downstream(graph, cached, i, j)
  {
    var path :| IsChain(graph, cached', path) && path[0] == item && path[|path| - 1] == j;
    var longer := [i] + path;
    forall k | 0 <= k < |longer| - 1 ensures Follows(graph, cached, longer[k], longer[k + 1]) {
      if k > 0 { assert Follows(graph, cached', path[k - 1], path[k]); }
    }
    assert IsChain(graph, cached, longer);
  }

  lemma MoreDownstream(graph: map<Item, set<Item>>, cached: set<Item>, cached': set<Item>, i: Item, item: Item,
                       gone: set<Item>, more: set<Item>)
    requires item in Of(graph, i) && item in cached && cached' <= cached
    requires OnlyDownstream(graph, cached, i, gone) && OnlyDownstream(graph, cached', item, more)
    ensures OnlyDownstream(graph, cached, i, gone + more)
  {
    hide Downstream, Of;
    if Downstream(graph, cached', item, Sym(MODULES)) {
      OneStepUp(graph, cached, cached', i, item, Sym(MODULES));
    } else {
      forall j | j in more ensures Downstream(graph, cached, i, j) { OneStepUp(graph, cached, cached', i, item, j); }
    }
  }

  /** All cached dependents of what is gone are dependents of `i` and still to do. */
  ghost predicate Pending(cfg: Config, vis: map<Item, Tri>, gone: set<Item>, i: Item, todo: set<Item>) {
    && (forall d, j :: d in gone && d in Inputs(cfg, j) && j in vis ==> d == i && j in todo)
    && (Sym(MODULES) in gone ==> Defined(cfg) <= gone)
  }

  lemma PendingStart(cfg: Config, vis: map<Item, Tri>, i: Item, todo: set<Item>)
    requires i != Sym(MODULES) && forall j :: i in Inputs(cfg, j) ==> j in todo
    ensures Pending(cfg, vis, {i}, i, todo)
  {}

  lemma PendingLess(cfg: Config, vis: map<Item, Tri>, gone: set<Item>, i: Item, todo: set<Item>, item: Item)
    requires Pending(cfg, vis, gone, i, todo) && item !in vis
    ensures Pending(cfg, vis, gone, i, todo - {item})
  {}

  lemma PendingMore(cfg: Config, vis: map<Item, Tri>, gone: set<Item>, i: Item, todo: set<Item>, item: Item,
                    more: set<Item>)
    requires Pending(cfg, vis, gone, i, todo) && Cut(cfg, vis - more, more) && item in more
    ensures Pending(cfg, vis - more, gone + more, i, todo - {item})
  {
    hide Inputs, Defined;
  }

  lemma PendingDone(cfg: Config, vis: map<Item, Tri>, gone: set<Item>, i: Item)
    requires Pending(cfg, vis, gone, i, {})
    ensures Cut(cfg, vis, gone)
  {
    hide Inputs, Defined;
  }

  lemma VisWithout(k: Cache, gone: set<Item>)
    ensures Without(k, gone).vis == k.vis - gone
  {}

  lemma CachedAssignable(cfg: Config, u: User, k: Cache, i: Item)
    requires WellFormed(cfg) && Justified(cfg, u, k) && i in k.asg
    ensures k.asg[i] == Assignable(cfg, u, i)
  {
    JustifiedIsCoherent(cfg, u, k);
  }

  lemma GrowsSelf(k: Cache)
    ensures Grows(k, k)
  {}

  lemma GrowsOn(k: Cache, k': Cache, k'': Cache)
    requires Grows(k, k') && Grows(k', k'')
    ensures Grows(k, k'')
  {}

  // Growth of the cache does not take back what could be computed

  lemma GrowEval(cfg: Config, u: User, k: Cache, k': Cache, e: Expr)
    requires Grows(k, k')
    ensures TryEval(cfg, u, k, e).Some? ==> TryEval(cfg, u, k', e) == TryEval(cfg, u, k, e)
  {
    forall i ensures Keeps(u, k, u, k', i) {}
    CarryEval(cfg, u, k, u, k', e);
  }

  lemma GrowAtom(cfg: Config, u: User, k: Cache, k': Cache, a: Atom)
    requires Grows(k, k')
    ensures TryAtomTri(cfg, u, k, a).Some? ==> TryAtomTri(cfg, u, k', a) == TryAtomTri(cfg, u, k, a)
    ensures TryAtomStr(cfg, u, k, a).Some? ==> TryAtomStr(cfg, u, k', a) == TryAtomStr(cfg, u, k, a)
    ensures TryAtomNum(cfg, u, k, a).Some? ==> TryAtomNum(cfg, u, k', a) == TryAtomNum(cfg, u, k, a)
  {}

  lemma GrowMaxEval(cfg: Config, u: User, k: Cache, k': Cache, es: seq<Expr>)
    requires Grows(k, k')
    ensures TryMaxEval(cfg, u, k, es).Some? ==> TryMaxEval(cfg, u, k', es) == TryMaxEval(cfg, u, k, es)
  {
    forall i ensures Keeps(u, k, u, k', i) {}
    CarryMaxEval(cfg, u, k, u, k', es, es);
  }

  lemma GrowPick(cfg: Config, u: User, k: Cache, k': Cache, d: SymDef)
    requires Grows(k, k')
    ensures var ds := d.defaults;
            && (TryPick(cfg, u, k, ds).Some? ==> TryPick(cfg, u, k', ds) == TryPick(cfg, u, k, ds))
            && (TryPickTri(cfg, u, k, ds).Some? ==> TryPickTri(cfg, u, k', ds) == TryPickTri(cfg, u, k, ds))
  {
    forall i ensures Keeps(u, k, u, k', i) {}
    CarryPick(cfg, u, k, u, k', d, d.defaults);
  }

  lemma GrowMode(cfg: Config, u: User, k: Cache, k': Cache, c: nat)
    requires Grows(k, k')
    ensures TryMode(cfg, u, k, c).Some? ==> TryMode(cfg, u, k', c) == TryMode(cfg, u, k, c)
  {}

  lemma GrowVis(k: Cache, k': Cache, i: Item)
    requires Grows(k, k')
    ensures i in k.vis ==> Get(k'.vis, i) == Get(k.vis, i)
  {}

  lemma GrowWeigh(cfg: Config, u: User, k: Cache, k': Cache, s: string, vis: Tri)
    requires s in cfg.syms && Grows(k, k')
    ensures var d := cfg.syms[s];
            TryWeigh(cfg, u, k, s, d, vis).Some? ==>
              TryWeigh(cfg, u, k', s, d, vis) == TryWeigh(cfg, u, k, s, d, vis)
  {
    forall i ensures Keeps(u, k, u, k', i) {}
    CarryWeigh(cfg, u, k, u, k', s, vis);
  }

  lemma GrowRange(cfg: Config, u: User, k: Cache, k': Cache, d: SymDef, base: nat)
    requires Grows(k, k')
    ensures TryRange(cfg, u, k, d.ranges, base).Some? ==>
              TryRange(cfg, u, k', d.ranges, base) == TryRange(cfg, u, k, d.ranges, base)
  {
    forall i ensures Keeps(u, k, u, k', i) {}
    CarryRange(cfg, u, k, u, k', d, d.ranges, base);
  }

  lemma GrowActsAsBool(cfg: Config, u: User, k: Cache, k': Cache, s: string)
    requires WellFormed(cfg) && s in cfg.syms && Grows(k, k')
    ensures var d := cfg.syms[s];
            TryActsAsBool(cfg, u, k, d).Some? ==> TryActsAsBool(cfg, u, k', d) == TryActsAsBool(cfg, u, k, d)
  {
    forall i ensures Keeps(u, k, u, k', i) {}
    CarryActsAsBool(cfg, u, k, u, k', s);
  }

  // What loops have passed over

  ghost predicate Passed(cfg: Config, u: User, k: Cache, d: ChoiceDefault) {
    var v := TryEval(cfg, u, k, d.cond);
    v.Some? && (v.value == 0 || Get(k.vis, Sym(d.sym)) == Some(0))
  }

  lemma {:induction false} SkipDefaults(cfg: Config, u: User, k: Cache, ds: seq<ChoiceDefault>, n: nat,
                                        syms: seq<string>)
    requires n <= |ds| && forall j :: 0 <= j < n ==> Passed(cfg, u, k, ds[j])
    ensures TryDefaultFrom(cfg, u, k, ds, syms) == TryDefaultFrom(cfg, u, k, ds[n..], syms)
  {
    if n == 0 {
      assert ds[0..] == ds;
    } else {
      assert Passed(cfg, u, k, ds[0]);
      assert ds[1..][n - 1..] == ds[n..];
      SkipDefaults(cfg, u, k, ds[1..], n - 1, syms);
    }
  }

  lemma TakeDefault(cfg: Config, u: User, k: Cache, ds: seq<ChoiceDefault>, n: nat, syms: seq<string>)
    requires n < |ds| && forall x :: x in ds[..n] ==> Passed(cfg, u, k, x)
    requires var v := TryEval(cfg, u, k, ds[n].cond); v.Some? && v.value != 0
    requires var w := Get(k.vis, Sym(ds[n].sym)); w.Some? && w.value != 0
    ensures TryDefaultFrom(cfg, u, k, ds, syms) == Some(Some(ds[n].sym))
  {
    forall j | 0 <= j < n ensures Passed(cfg, u, k, ds[j]) { assert ds[j] == ds[..n][j]; }
    SkipDefaults(cfg, u, k, ds, n, syms);
  }

  lemma {:induction false} SkipInvisible(k: Cache, syms: seq<string>, n: nat)
    requires n <= |syms| && forall j :: 0 <= j < n ==> Get(k.vis, Sym(syms[j])) == Some(0)
    ensures TryFirstVisible(k, syms) == TryFirstVisible(k, syms[n..])
  {
    if n == 0 {
      assert syms[0..] == syms;
    } else {
      assert syms[1..][n - 1..] == syms[n..];
      SkipInvisible(k, syms[1..], n - 1);
    }
  }

  lemma {:induction false} SkipPick(cfg: Config, u: User, k: Cache, ds: seq<Default>, n: nat)
    requires n <= |ds| && forall j :: 0 <= j < n ==> TryEval(cfg, u, k, ds[j].cond) == Some(0)
    ensures TryPick(cfg, u, k, ds) == TryPick(cfg, u, k, ds[n..])
  {
    if n == 0 {
      assert ds[0..] == ds;
    } else {
      assert ds[1..][n - 1..] == ds[n..];
      SkipPick(cfg, u, k, ds[1..], n - 1);
    }
  }

  lemma {:induction false} SkipRanges(cfg: Config, u: User, k: Cache, rs: seq<Range>, n: nat, base: nat)
    requires n <= |rs| && forall j :: 0 <= j < n ==> TryEval(cfg, u, k, rs[j].cond) == Some(0)
    ensures TryRange(cfg, u, k, rs, base) == TryRange(cfg, u, k, rs[n..], base)
  {
    if n == 0 {
      assert rs[0..] == rs;
    } else {
      assert rs[1..][n - 1..] == rs[n..];
      SkipRanges(cfg, u, k, rs[1..], n - 1, base);
    }
  }

  lemma GrowPassed(cfg: Config, u: User, k: Cache, k': Cache, ds: seq<ChoiceDefault>)
    requires Grows(k, k') && forall d :: d in ds ==> Passed(cfg, u, k, d)
    ensures forall d :: d in ds ==> Passed(cfg, u, k', d)
  {
    forall d | d in ds ensures Passed(cfg, u, k', d) { GrowEval(cfg, u, k, k', d.cond); }
  }

  lemma GrowConds(cfg: Config, u: User, k: Cache, k': Cache, rs: seq<Range>, n: nat)
    requires Grows(k, k') && n <= |rs| && forall j :: 0 <= j < n ==> TryEval(cfg, u, k, rs[j].cond) == Some(0)
    ensures forall j :: 0 <= j < n ==> TryEval(cfg, u, k', rs[j].cond) == Some(0)
  {
    forall j | 0 <= j < n ensures TryEval(cfg, u, k', rs[j].cond) == Some(0) {
      GrowEval(cfg, u, k, k', rs[j].cond);
    }
  }

  // Reading off the cache

  lemma CachedTriValue(cfg: Config, u: User, k: Cache, s: string)
    requires Justified(cfg, u, k) && s in k.tri
    ensures CachedTri(cfg, k, s) == Some(k.tri[s].val)
  {}

  lemma CachedStrValue(cfg: Config, u: User, k: Cache, s: string)
    requires Justified(cfg, u, k) && s in k.str
    ensures TryAtomStr(cfg, u, k, Ref(Sym(s))) == Some(k.str[s].val)
  {}

  lemma UndefinedVis(cfg: Config, u: User, k: Cache, i: Item)
    requires i !in Defined(cfg)
    ensures TryVis(cfg, u, k, i) == Some(0)
  {}

  lemma MemberRank(cfg: Config, c: nat, m: string)
    requires WellFormed(cfg) && c in cfg.choices && m in cfg.choices[c].syms
    ensures cfg.rank(Sym(m)) == cfg.rank(Cho(c))
    ensures Below(cfg, ChoiceExprs(cfg.choices[c]), 8 * cfg.rank(Cho(c)))
  {}

  // Caching what was just computed

  lemma AddVis(cfg: Config, u: User, k: Cache, i: Item, vis: Tri)
    requires WellFormed(cfg) && Justified(cfg, u, k) && TryVis(cfg, u, k, i) == Some(vis)
    ensures var k' := k.(vis := k.vis[i := vis]); Grows(k, k') && Justified(cfg, u, k')
  {
    hide TryVis, TryTri, TryStr, TrySelection, TryAssignable, WellFormed, Inputs;
    var k' := k.(vis := k.vis[i := vis]);
    forall j ensures Keeps(u, k, u, k', j) {}
    CarryVis(cfg, u, k, u, k', i);
    GrowthKeeps(cfg, u, k, k');
  }

  lemma AddTri(cfg: Config, u: User, k: Cache, s: string, v: Computed)
    requires WellFormed(cfg) && Justified(cfg, u, k) && TryTri(cfg, u, k, s) == Some(v)
    ensures var k' := k.(tri := k.tri[s := v]); Grows(k, k') && Justified(cfg, u, k')
  {
    hide TryVis, TryTri, TryStr, TrySelection, TryAssignable, WellFormed, Inputs;
    var k' := k.(tri := k.tri[s := v]);
    forall j ensures Keeps(u, k, u, k', j) {}
    CarryTri(cfg, u, k, u, k', s);
    GrowthKeeps(cfg, u, k, k');
  }

  lemma AddStr(cfg: Config, u: User, k: Cache, s: string, v: Text)
    requires WellFormed(cfg) && Justified(cfg, u, k) && TryStr(cfg, u, k, s) == Some(v)
    ensures var k' := k.(str := k.str[s := v]); Grows(k, k') && Justified(cfg, u, k')
  {
    hide TryVis, TryTri, TryStr, TrySelection, TryAssignable, WellFormed, Inputs;
    var k' := k.(str := k.str[s := v]);
    forall j ensures Keeps(u, k, u, k', j) {}
    CarryStr(cfg, u, k, u, k', s);
    GrowthKeeps(cfg, u, k, k');
  }

  lemma AddSelection(cfg: Config, u: User, k: Cache, c: nat, v: Option<string>)
    requires WellFormed(cfg) && Justified(cfg, u, k) && TrySelection(cfg, u, k, c) == Some(v)
    ensures var k' := k.(sel := k.sel[c := v]); Grows(k, k') && Justified(cfg, u, k')
  {
    hide TryVis, TryTri, TryStr, TrySelection, TryAssignable, WellFormed, Inputs;
    var k' := k.(sel := k.sel[c := v]);
    forall j ensures Keeps(u, k, u, k', j) {}
    CarrySelection(cfg, u, k, u, k', c);
    GrowthKeeps(cfg, u, k, k');
  }

  lemma AddAssignable(cfg: Config, u: User, k: Cache, i: Item, v: seq<Tri>)
    requires WellFormed(cfg) && Justified(cfg, u, k) && TryAssignable(cfg, u, k, i) == Some(v)
    ensures var k' := k.(asg := k.asg[i := v]); Grows(k, k') && Justified(cfg, u, k')
  {
    hide TryVis, TryTri, TryStr, TrySelection, TryAssignable, WellFormed, Inputs;
    var k' := k.(asg := k.asg[i := v]);
    forall j ensures Keeps(u, k, u, k', j) {}
    CarryAssignable(cfg, u, k, u, k', i);
    GrowthKeeps(cfg, u, k, k');
  }

  // Clearing

  lemma WithoutOne(k: Cache, k': Cache, i: Item)
    requires k'.vis == k.vis - {i} && k'.asg == k.asg - {i}
    requires i.Sym? ==> k'.tri == k.tri - {i.name} && k'.str == k.str - {i.name} && k'.sel == k.sel
    requires i.Cho? ==> k'.tri == k.tri && k'.str == k.str && k'.sel == k.sel - {i.id}
    ensures k' == Without(k, {i})
  {}

  lemma WithoutNone(k: Cache)
    ensures Without(k, {}) == k
  {}

  lemma OrderCoversDefined(cfg: Config)
    requires Ordered(cfg)
    ensures (set k | 0 <= k < |cfg.symOrder| :: Sym(cfg.symOrder[k])) +
            (set k | 0 <= k < |cfg.choiceOrder| :: Cho(cfg.choiceOrder[k])) == Defined(cfg)
  {}

  /** Only defined items have inputs. */
  lemma EverythingCut(cfg: Config, k: Cache)
    ensures Cut(cfg, Without(k, Defined(cfg)).vis, Defined(cfg))
  {}

  // Assignments

  /** An assignment to `s` moves the user state only where nothing cached can notice. */
  lemma SymAssigned(cfg: Config, u: User, k: Cache, u': User, s: string, gone: set<Item>)
    requires WellFormed(cfg) && Justified(cfg, u, k) && s in cfg.syms
    requires Cut(cfg, Without(k, gone).vis, gone)
    requires u'.mode == u.mode && forall x :: x != s ==> Get(u.val, x) == Get(u'.val, x)
    requires var c := cfg.syms[s].choice;
             || (u'.sel == u.sel && (Sym(s) in gone || cfg.syms[s].prompts == []))
             || (c.Some? && Cho(c.value) in gone && forall x :: x != c.value ==> Get(u.sel, x) == Get(u'.sel, x))
    ensures UserMoved(u, k, u', gone)
  {
    hide WellFormed, Justified, Inputs, Without;
    if cfg.syms[s].prompts == [] { PromptlessInvisible(cfg, u, k, s); }
    if cfg.syms[s].choice.Some? { MemberDepends(cfg, s); }
    if Sym(s) !in gone && Sym(s) in k.vis {
      assert Sym(s) in Without(k, gone).vis by { StillCached(k, gone, Sym(s)); }
    }
  }

  lemma StillCached(k: Cache, gone: set<Item>, i: Item)
    requires i in k.vis && i !in gone
    ensures i in Without(k, gone).vis
  {}

  lemma PromptlessInvisible(cfg: Config, u: User, k: Cache, s: string)
    requires Justified(cfg, u, k) && s in cfg.syms && cfg.syms[s].prompts == []
    ensures Sym(s) in k.vis ==> k.vis[Sym(s)] == 0
  {}

  lemma UnsetAll(cfg: Config, u: User, u': User, marks: set<Item>)
    requires Ordered(cfg) && UserOk(cfg, u)
    requires forall s :: Get(u'.val, s) == if s in cfg.symOrder && Sym(s) !in marks then None else Get(u.val, s)
    requires forall c: nat ::
               Get(u'.mode, c) == if c in cfg.choiceOrder && Cho(c) !in marks then None else Get(u.mode, c)
    requires forall c: nat :: Get(u'.sel, c) == if c in cfg.choiceOrder && Cho(c) !in marks then None else Get(u.sel, c)
    ensures u' == UnsetUnmarked(u, marks)
  {
    hide ValidFor;
    var r := UnsetUnmarked(u, marks);
    forall s ensures Get(u'.val, s) == Get(r.val, s) {}
    forall c: nat ensures Get(u'.mode, c) == Get(r.mode, c) && Get(u'.sel, c) == Get(r.sel, c) {}
    SameGets(u'.val, r.val);
    SameGets(u'.mode, r.mode);
    SameGets(u'.sel, r.sel);
  }

  lemma SameGets<K, V>(m: map<K, V>, m': map<K, V>)
    requires forall key {:trigger Get(m, key)} :: key in m || key in m' ==> Get(m, key) == Get(m', key)
    ensures m == m'
  {
    forall key | key in m || key in m' ensures key in m && key in m' && m[key] == m'[key] {
      assert Get(m, key) == Get(m', key);
    }
  }

  // Building the graph

  lemma ItemsOfAllGrows(es: seq<Expr>, n: nat)
    requires n < |es|
    ensures ItemsOfAll(es[..n + 1]) == ItemsOfAll(es[..n]) + Items(es[n])
  {}

  lemma MembersAsExprs(syms: seq<string>, es: seq<Expr>)
    requires |es| == |syms| && forall k :: 0 <= k < |syms| ==> es[k] == Leaf(Ref(Sym(syms[k])))
    ensures ItemsOfAll(es) == set m | m in syms :: Sym(m)
  {
    forall m | m in syms ensures Sym(m) in ItemsOfAll(es) {
      var k :| 0 <= k < |syms| && syms[k] == m;
      assert es[k] in es && Sym(m) in Items(es[k]);
    }
  }

  lemma InputsDefined(cfg: Config)
    requires Ordered(cfg)
    ensures forall d, c: nat :: d in Inputs(cfg, Cho(c)) ==> c in cfg.choiceOrder
  {}

  class Kconfig {
    const config: Config

    // Symbol.user_value, Choice.user_value and Choice.user_selection
    var userValue: map<string, UserValue>
    var userMode: map<nat, Tri>
    var userSelection: map<nat, string>

    // _was_set
    var wasSet: set<Item>

    // _cached_vis, _cached_tri_val, _cached_str_val, _cached_assignable and _cached_selection
    var cachedVis: map<Item, Tri>
    var cachedTri: map<string, Computed>
    var cachedStr: map<string, Text>
    var cachedAssignable: map<Item, seq<Tri>>
    var cachedSelection: map<nat, Option<string>>

    // _dependents
    var dependents: map<Item, set<Item>>

    ghost function State(): User
      reads `userValue, `userMode, `userSelection
    {
      User(userValue, userMode, userSelection)
    }

    ghost function Caches(): Cache
      reads `cachedVis, `cachedTri, `cachedStr, `cachedAssignable, `cachedSelection
    {
      Cache(cachedVis, cachedTri, cachedStr, cachedAssignable, cachedSelection)
    }

    /** The dependents are the inverse of the inputs. */
    ghost predicate Linked()
      reads `dependents
    {
      forall d, i :: i in Of(dependents, d) <==> d in Inputs(config, i)
    }

    ghost predicate Valid()
      reads this
    {
      && WellFormed(config)
      && UserOk(config, State())
      && Justified(config, State(), Caches())
    }

    lemma ValidParts()
      requires Valid()
      ensures WellFormed(config) && UserOk(config, State()) && Justified(config, State(), Caches())
    {}

    // Evaluation

    method AtomValue(a: Atom) returns (t: Tri)
      requires Valid()
      modifies `cachedVis, `cachedTri, `cachedStr, `cachedAssignable, `cachedSelection
      ensures Valid() && Grows(old(Caches()), Caches())
      ensures TryAtomTri(config, State(), Caches(), a) == Some(t)
      decreases AtomLevel(config, a), 2
    {
      hide Valid, Grows, State, TryMode;
      GrowsSelf(Caches());
      match a
      case Nmy(n) => t := n;
      case Quoted(_) => t := 0;
      case Ref(Sym(s)) =>
        t := TriValue(s);
        ValidParts();
        CachedTriValue(config, State(), Caches(), s);
      case Ref(Cho(c)) => t := ChoiceMode(c);
    }

    method AtomText(a: Atom) returns (r: string)
      requires Valid()
      modifies `cachedVis, `cachedTri, `cachedStr, `cachedAssignable, `cachedSelection
      ensures Valid() && Grows(old(Caches()), Caches())
      ensures TryAtomStr(config, State(), Caches(), a) == Some(r)
      decreases AtomLevel(config, a), 2
    {
      hide Valid, Grows, State, TryMode;
      GrowsSelf(Caches());
      match a
      case Nmy(n) => r := TriText(n);
      case Quoted(q) => r := q;
      case Ref(Sym(s)) =>
        r := StrValue(s);
        ValidParts();
        CachedStrValue(config, State(), Caches(), s);
      case Ref(Cho(c)) => var m := ChoiceMode(c); r := TriText(m);
    }

    method AtomNumber(a: Atom) returns (r: Option<int>)
      requires Valid()
      modifies `cachedVis, `cachedTri, `cachedStr, `cachedAssignable, `cachedSelection
      ensures Valid() && Grows(old(Caches()), Caches())
      ensures TryAtomNum(config, State(), Caches(), a) == Some(r)
      decreases AtomLevel(config, a), 3
    {
      hide Valid, Grows, State, Caches, TryAtomTri, TryAtomStr;
      if KindOf(config, a).Logical() {
        var t := AtomValue(a);
        r := Some(t);
      } else {
        var s := AtomText(a);
        r := config.parse(s, KindOf(config, a).Base());
      }
    }

    method CompareTexts(x: Atom, y: Atom) returns (cmp: int)
      requires Valid()
      modifies `cachedVis, `cachedTri, `cachedStr, `cachedAssignable, `cachedSelection
      ensures Valid() && Grows(old(Caches()), Caches())
      ensures TryStrCmp(config, State(), Caches(), x, y) == Some(cmp)
      decreases MaxNat(AtomLevel(config, x), AtomLevel(config, y)), 4
    {
      hide Valid, Grows, State, Caches, TryAtomStr, StrCmp;
      var sx := AtomText(x);
      ghost var k := Caches();
      var sy := AtomText(y);
      GrowAtom(config, State(), k, Caches(), x);
      GrowsOn(old(Caches()), k, Caches());
      cmp := StrCmp(sx, sy);
    }

    method CompareAtoms(x: Atom, y: Atom) returns (cmp: int)
      requires Valid()
      modifies `cachedVis, `cachedTri, `cachedStr, `cachedAssignable, `cachedSelection
      ensures Valid() && Grows(old(Caches()), Caches())
      ensures TryCompare(config, State(), Caches(), x, y) == Some(cmp)
      decreases MaxNat(AtomLevel(config, x), AtomLevel(config, y)), 5
    {
      hide Valid, Grows, State, Caches, TryStrCmp, TryAtomNum, TryAtomTri, TryAtomStr, KindOf;
      var kx, ky := KindOf(config, x), KindOf(config, y);
      if kx == ky == Str || kx == ky == Key {
        cmp := CompareTexts(x, y);
        return;
      }
      var nx := AtomNumber(x);
      ghost var k1 := Caches();
      if nx.Some? {
        var ny := AtomNumber(y);
        ghost var k2 := Caches();
        GrowAtom(config, State(), k1, k2, x);
        GrowsOn(old(Caches()), k1, k2);
        if ny.Some? {
          return nx.value - ny.value;
        }
        cmp := CompareTexts(x, y);
        GrowAtom(config, State(), k2, Caches(), x);
        GrowAtom(config, State(), k2, Caches(), y);
        GrowsOn(old(Caches()), k2, Caches());
      } else {
        cmp := CompareTexts(x, y);
        GrowAtom(config, State(), k1, Caches(), x);
        GrowsOn(old(Caches()), k1, Caches());
      }
    }

    method ExprValue(e: Expr) returns (t: Tri)
      requires Valid()
      modifies `cachedVis, `cachedTri, `cachedStr, `cachedAssignable, `cachedSelection
      ensures Valid() && Grows(old(Caches()), Caches())
      ensures TryEval(config, State(), Caches(), e) == Some(t)
      decreases Level(config, e), 6, e
    {
      hide Valid, Grows, State, Caches, TryAtomTri, TryCompare, Holds;
      match e
      case Leaf(a) => t := AtomValue(a);
      case And(l, r) =>
        var v := ExprValue(l);
        if v == 0 { return 0; }
        ghost var k := Caches();
        var w := ExprValue(r);
        GrowEval(config, State(), k, Caches(), l);
        GrowsOn(old(Caches()), k, Caches());
        t := Min(v, w);
      case Or(l, r) =>
        var v := ExprValue(l);
        if v == 2 { return 2; }
        ghost var k := Caches();
        var w := ExprValue(r);
        GrowEval(config, State(), k, Caches(), l);
        GrowsOn(old(Caches()), k, Caches());
        t := Max(v, w);
      case Not(f) =>
        var v := ExprValue(f);
        t := 2 - v;
      case Rel(op, x, y) =>
        var cmp := CompareAtoms(x, y);
        t := Holds(op, cmp);
    }

    method PromptValue(es: seq<Expr>, ghost bound: nat) returns (vis: Tri)
      requires Valid() && Below(config, es, bound)
      modifies `cachedVis, `cachedTri, `cachedStr, `cachedAssignable, `cachedSelection
      ensures Valid() && Grows(old(Caches()), Caches())
      ensures TryMaxEval(config, State(), Caches(), es) == Some(vis)
      decreases bound, 7
    {
      hide Valid, Grows, State, Caches, TryEval, Level;
      vis := 0;
      GrowsSelf(Caches());
      for n := 0 to |es|
        invariant Valid() && Grows(old(Caches()), Caches())
        invariant TryMaxEval(config, State(), Caches(), es[..n]) == Some(vis)
      {
        ghost var k := Caches();
        var v := ExprValue(es[n]);
        GrowMaxEval(config, State(), k, Caches(), es[..n]);
        GrowsOn(old(Caches()), k, Caches());
        assert es[..n + 1][..n] == es[..n];
        vis := Max(vis, v);
      }
      assert es[..|es|] == es;
    }

    // Types, visibility and modes

    method ModulesValue() returns (t: Tri)
      requires Valid()
      modifies `cachedVis, `cachedTri, `cachedStr, `cachedAssignable, `cachedSelection
      ensures Valid() && Grows(old(Caches()), Caches())
      ensures TryModules(config, Caches()) == Some(t)
      decreases TriLevel(config, MODULES), 2
    {
      hide Valid, Grows, State;
      t := TriValue(MODULES);
      ValidParts();
      CachedTriValue(config, State(), Caches(), MODULES);
    }

    method ChoiceActsAsBool(c: nat) returns (b: bool)
      requires Valid() && c in config.choices
      modifies `cachedVis, `cachedTri, `cachedStr, `cachedAssignable, `cachedSelection
      ensures Valid() && Grows(old(Caches()), Caches())
      ensures TryChoiceActsAsBool(config, Caches(), config.choices[c]) == Some(b)
      decreases ChoiceVisLevel(config, c), 0
    {
      hide Valid, Grows, State, Caches, TryModules, WellFormed, UserOk, Justified;
      ValidParts();
      ChoiceFacts(config, c);
      var d := config.choices[c];
      if d.kind != Tristate {
        GrowsSelf(Caches());
        return d.kind == Bool;
      }
      var m := ModulesValue();
      b := m == 0;
    }

    method ChoiceMode(c: nat) returns (mode: Tri)
      requires Valid()
      modifies `cachedVis, `cachedTri, `cachedStr, `cachedAssignable, `cachedSelection
      ensures Valid() && Grows(old(Caches()), Caches())
      ensures TryMode(config, State(), Caches(), c) == Some(mode)
      decreases ModeLevel(config, c), 1
    {
      hide Valid, Grows, TryChoiceActsAsBool;
      if c !in config.choices {
        GrowsSelf(Caches());
        return 0;
      }
      var d := config.choices[c];
      mode := if d.optional then 0 else 1;
      if c in userMode { mode := Max(mode, userMode[c]); }
      var vis := Visibility(Cho(c));
      mode := Min(mode, vis);
      if mode == 1 {
        ghost var k := Caches();
        var b := ChoiceActsAsBool(c);
        GrowVis(k, Caches(), Cho(c));
        GrowsOn(old(Caches()), k, Caches());
        if b { mode := 2; }
      }
    }

    method ActsAsBoolNow(s: string) returns (b: bool)
      requires Valid() && s in config.syms
      modifies `cachedVis, `cachedTri, `cachedStr, `cachedAssignable, `cachedSelection
      ensures Valid() && Grows(old(Caches()), Caches())
      ensures TryActsAsBool(config, State(), Caches(), config.syms[s]) == Some(b)
      decreases SymVisLevel(config, s), 0
    {
      hide Valid, Grows, State, Caches, TryModules, TryMode, WellFormed, UserOk, Justified;
      ValidParts();
      SymFacts(config, s);
      var d := config.syms[s];
      GrowsSelf(Caches());
      if d.kind != Tristate { return d.kind == Bool; }
      if d.choice.Some? {
        var m := ChoiceMode(d.choice.value);
        if m == 2 { return true; }
        ghost var k := Caches();
        var q := ModulesValue();
        GrowMode(config, State(), k, Caches(), d.choice.value);
        GrowsOn(old(Caches()), k, Caches());
        return q == 0;
      }
      var q := ModulesValue();
      b := q == 0;
    }

    method Promote(s: string, vis: Tri) returns (r: Tri)
      requires Valid() && s in config.syms
      modifies `cachedVis, `cachedTri, `cachedStr, `cachedAssignable, `cachedSelection
      ensures Valid() && Grows(old(Caches()), Caches())
      ensures TryPromote(config, State(), Caches(), config.syms[s], vis) == Some(r)
      decreases SymVisLevel(config, s), 1
    {
      hide Valid, Grows, State, Caches, TryActsAsBool;
      GrowsSelf(Caches());
      var d := config.syms[s];
      if vis != 1 { return vis; }
      if d.kind != Tristate { return 2; }
      var b := ActsAsBoolNow(s);
      r := if b then 2 else 1;
    }

    method ComputeSymVis(s: string) returns (vis: Tri)
      requires Valid() && s in config.syms
      modifies `cachedVis, `cachedTri, `cachedStr, `cachedAssignable, `cachedSelection
      ensures Valid() && Grows(old(Caches()), Caches())
      ensures TrySymVis(config, State(), Caches(), s) == Some(vis)
      decreases SymVisLevel(config, s), 2
    {
      hide Valid, Grows, State, Caches, TryMode, TryMaxEval, TryPromote, WellFormed, UserOk, Justified, Below;
      ValidParts();
      SymFacts(config, s);
      var d := config.syms[s];
      vis := PromptValue(d.prompts, 8 * config.rank(Sym(s)) + 3);
      ghost var k := Caches();
      if d.choice.Some? && ((config.choices[d.choice.value].kind == Tristate && d.kind != Tristate)
                            || (d.kind == Tristate && vis == 1)) {
        // Non-tristate symbols show in y mode only, m-visible tristate ones in m mode only
        var m := ChoiceMode(d.choice.value);
        ghost var k' := Caches();
        GrowMaxEval(config, State(), k, k', d.prompts);
        GrowsOn(old(Caches()), k, k');
        if (m == 2) == (d.kind == Tristate) { return 0; }
        var r := Promote(s, vis);
        GrowMaxEval(config, State(), k', Caches(), d.prompts);
        GrowMode(config, State(), k', Caches(), d.choice.value);
        GrowsOn(old(Caches()), k', Caches());
        vis := r;
      } else {
        var r := Promote(s, vis);
        GrowMaxEval(config, State(), k, Caches(), d.prompts);
        GrowsOn(old(Caches()), k, Caches());
        vis := r;
      }
    }

    method ComputeChoiceVis(c: nat) returns (vis: Tri)
      requires Valid() && c in config.choices
      modifies `cachedVis, `cachedTri, `cachedStr, `cachedAssignable, `cachedSelection
      ensures Valid() && Grows(old(Caches()), Caches())
      ensures TryChoiceVis(config, State(), Caches(), c) == Some(vis)
      decreases ChoiceVisLevel(config, c), 1
    {
      hide Valid, Grows, State, Caches, TryMaxEval, TryChoiceActsAsBool, WellFormed, UserOk, Justified, Below;
      ValidParts();
      ChoiceFacts(config, c);
      var d := config.choices[c];
      vis := PromptValue(d.prompts, 8 * config.rank(Cho(c)));
      if vis == 1 {
        if d.kind != Tristate { return 2; }
        ghost var k := Caches();
        var b := ChoiceActsAsBool(c);
        GrowMaxEval(config, State(), k, Caches(), d.prompts);
        GrowsOn(old(Caches()), k, Caches());
        if b { vis := 2; }
      }
    }

    method Visibility(i: Item) returns (vis: Tri)
      requires Valid()
      modifies `cachedVis, `cachedTri, `cachedStr, `cachedAssignable, `cachedSelection
      ensures Valid() && Grows(old(Caches()), Caches())
      ensures Get(cachedVis, i) == Some(vis)
      decreases VisLevel(config, i), 3
    {
      hide WellFormed, UserOk, Justified, Grows, TrySymVis, TryChoiceVis;
      GrowsSelf(Caches());
      if i in cachedVis { return cachedVis[i]; }
      match i {
        case Sym(s) =>
          if s in config.syms { vis := ComputeSymVis(s); } else {
            vis := 0;
            UndefinedVis(config, State(), Caches(), i);
          }
        case Cho(c) =>
          if c in config.choices { vis := ComputeChoiceVis(c); } else {
            vis := 0;
            UndefinedVis(config, State(), Caches(), i);
          }
      }
      ghost var k := Caches();
      AddVis(config, State(), k, i, vis);
      cachedVis := cachedVis[i := vis];
      GrowsOn(old(Caches()), k, Caches());
    }

    // Selections

    method DefaultSelection(c: nat) returns (sel: Option<string>)
      requires Valid() && c in config.choices
      modifies `cachedVis, `cachedTri, `cachedStr, `cachedAssignable, `cachedSelection
      ensures Valid() && Grows(old(Caches()), Caches())
      ensures var d := config.choices[c];
              if sel.Some? then
                TryDefaultFrom(config, State(), Caches(), d.defaults, d.syms) == Some(sel)
              else forall x :: x in d.defaults ==> Passed(config, State(), Caches(), x)
      decreases SelLevel(config, c), 0
    {
      hide Valid, Grows, State, TryEval, WellFormed, UserOk, Justified, ChoiceExprs, Level, TryDefaultFrom;
      ValidParts();
      ChoiceFacts(config, c);
      var d := config.choices[c];
      GrowsSelf(Caches());
      for n := 0 to |d.defaults|
        invariant Valid() && Grows(old(Caches()), Caches())
        invariant forall x :: x in d.defaults[..n] ==> Passed(config, State(), Caches(), x)
      {
        ghost var k := Caches();
        var x := d.defaults[n];
        assert x.sym in d.syms;
        ValidParts();
        MemberRank(config, c, x.sym);
        ChoiceCondListed(d, x);
        var v := ExprValue(x.cond);
        ghost var k1 := Caches();
        GrowsOn(k, k1, k1) by { GrowsSelf(k1); }
        if v != 0 {
          var w := Visibility(Sym(x.sym));
          GrowsOn(k, k1, Caches());
          GrowEval(config, State(), k1, Caches(), x.cond);
          if w != 0 {
            GrowPassed(config, State(), k, Caches(), d.defaults[..n]);
            GrowsOn(old(Caches()), k, Caches());
            TakeDefault(config, State(), Caches(), d.defaults, n, d.syms);
            return Some(x.sym);
          }
        }
        GrowPassed(config, State(), k, Caches(), d.defaults[..n]);
        GrowsOn(old(Caches()), k, Caches());
      }
      sel := None;
    }

    method FirstVisibleNow(c: nat) returns (sel: Option<string>)
      requires Valid() && c in config.choices
      modifies `cachedVis, `cachedTri, `cachedStr, `cachedAssignable, `cachedSelection
      ensures Valid() && Grows(old(Caches()), Caches())
      ensures TryFirstVisible(Caches(), config.choices[c].syms) == Some(sel)
      decreases SelLevel(config, c), 0
    {
      hide Valid, Grows, State, WellFormed, UserOk, Justified;
      var d := config.choices[c];
      GrowsSelf(Caches());
      for n := 0 to |d.syms|
        invariant Valid() && Grows(old(Caches()), Caches())
        invariant forall j :: 0 <= j < n ==> Get(Caches().vis, Sym(d.syms[j])) == Some(0)
      {
        ghost var k := Caches();
        ValidParts();
        MemberRank(config, c, d.syms[n]);
        var w := Visibility(Sym(d.syms[n]));
        forall j | 0 <= j < n ensures Get(Caches().vis, Sym(d.syms[j])) == Some(0) {
          GrowVis(k, Caches(), Sym(d.syms[j]));
        }
        GrowsOn(old(Caches()), k, Caches());
        if w != 0 {
          SkipInvisible(Caches(), d.syms, n);
          return Some(d.syms[n]);
        }
      }
      SkipInvisible(Caches(), d.syms, |d.syms|);
      sel := None;
    }

    method SelectionFromDefaults(c: nat) returns (sel: Option<string>)
      requires Valid() && c in config.choices
      modifies `cachedVis, `cachedTri, `cachedStr, `cachedAssignable, `cachedSelection
      ensures Valid() && Grows(old(Caches()), Caches())
      ensures TryDefaultFrom(config, State(), Caches(), config.choices[c].defaults, config.choices[c].syms) == Some(sel)
      decreases SelLevel(config, c), 1
    {
      hide Valid, Grows, State, Caches, TryFirstVisible, Passed;
      var d := config.choices[c];
      sel := DefaultSelection(c);
      if sel.None? {
        ghost var k := Caches();
        sel := FirstVisibleNow(c);
        GrowPassed(config, State(), k, Caches(), d.defaults);
        GrowsOn(old(Caches()), k, Caches());
        SkipDefaults(config, State(), Caches(), d.defaults, |d.defaults|, d.syms);
      }
    }

    method ComputeSelection(c: nat) returns (sel: Option<string>)
      requires Valid() && c in config.choices
      modifies `cachedVis, `cachedTri, `cachedStr, `cachedAssignable, `cachedSelection
      ensures Valid() && Grows(old(Caches()), Caches())
      ensures TrySelection(config, State(), Caches(), c) == Some(sel)
      decreases SelLevel(config, c), 2
    {
      hide Valid, Grows, TryMode, TryDefaultFrom, WellFormed, Justified, Below;
      ValidParts();
      if c in userSelection { MemberRank(config, c, userSelection[c]); }
      var m := ChoiceMode(c);
      if m != 2 { return None; }
      ghost var k := Caches();
      if c in userSelection {
        var v := Visibility(Sym(userSelection[c]));
        GrowMode(config, State(), k, Caches(), c);
        GrowsOn(old(Caches()), k, Caches());
        if v != 0 { return Some(userSelection[c]); }
        k := Caches();
      }
      sel := SelectionFromDefaults(c);
      GrowMode(config, State(), k, Caches(), c);
      GrowsOn(old(Caches()), k, Caches());
      if c in userSelection { GrowVis(k, Caches(), Sym(userSelection[c])); }
    }

    method SelectionOf(c: nat) returns (sel: Option<string>)
      requires Valid()
      modifies `cachedVis, `cachedTri, `cachedStr, `cachedAssignable, `cachedSelection
      ensures Valid() && Grows(old(Caches()), Caches())
      ensures Get(cachedSelection, c) == Some(sel)
      decreases SelLevel(config, c), 3
    {
      hide WellFormed, UserOk, Justified, Grows, TryMode, TryDefaultFrom;
      GrowsSelf(Caches());
      if c in cachedSelection { return cachedSelection[c]; }
      if c in config.choices { sel := ComputeSelection(c); } else { sel := None; }
      ghost var k := Caches();
      AddSelection(config, State(), k, c, sel);
      cachedSelection := cachedSelection[c := sel];
      GrowsOn(old(Caches()), k, Caches());
    }

    // Values

    method PickDefault(ds: seq<Default>, ghost bound: nat) returns (p: Option<(Expr, Tri)>)
      requires Valid()
      requires forall d :: d in ds ==> Level(config, d.cond) <= bound
      modifies `cachedVis, `cachedTri, `cachedStr, `cachedAssignable, `cachedSelection
      ensures Valid() && Grows(old(Caches()), Caches())
      ensures TryPick(config, State(), Caches(), ds) == Some(p)
      ensures p.Some? ==> exists d :: d in ds && d.value == p.value.0
      decreases bound, 7
    {
      hide Valid, Grows, State, Caches, TryEval, Level;
      GrowsSelf(Caches());
      for n := 0 to |ds|
        invariant Valid() && Grows(old(Caches()), Caches())
        invariant forall j :: 0 <= j < n ==> TryEval(config, State(), Caches(), ds[j].cond) == Some(0)
      {
        ghost var k := Caches();
        assert ds[n] in ds;
        var v := ExprValue(ds[n].cond);
        forall j | 0 <= j < n ensures TryEval(config, State(), Caches(), ds[j].cond) == Some(0) {
          GrowEval(config, State(), k, Caches(), ds[j].cond);
        }
        GrowsOn(old(Caches()), k, Caches());
        if v != 0 {
          SkipPick(config, State(), Caches(), ds, n);
          return Some((ds[n].value, v));
        }
      }
      SkipPick(config, State(), Caches(), ds, |ds|);
      p := None;
    }

    method PickLogical(s: string) returns (r: Option<(Tri, Tri)>)
      requires Valid() && s in config.syms
      modifies `cachedVis, `cachedTri, `cachedStr, `cachedAssignable, `cachedSelection
      ensures Valid() && Grows(old(Caches()), Caches())
      ensures TryPickTri(config, State(), Caches(), config.syms[s].defaults) == Some(r)
      decreases SymVisLevel(config, s), 1
    {
      hide Valid, Grows, State, Caches, TryEval, TryPick, WellFormed, UserOk, Justified, Level;
      ValidParts();
      ExprsListed(config, s);
      var d := config.syms[s];
      var p := PickDefault(d.defaults, 8 * config.rank(Sym(s)) + 3);
      if p.None? { return None; }
      ghost var k := Caches();
      var v := ExprValue(p.value.0);
      GrowPick(config, State(), k, Caches(), d);
      GrowsOn(old(Caches()), k, Caches());
      r := Some((v, p.value.1));
    }

    /** What the user, the defaults and the implies say. */
    method Weigh(s: string, vis: Tri) returns (r: Computed)
      requires Valid() && s in config.syms
      modifies `cachedVis, `cachedTri, `cachedStr, `cachedAssignable, `cachedSelection
      ensures Valid() && Grows(old(Caches()), Caches())
      ensures TryWeigh(config, State(), Caches(), s, config.syms[s], vis) == Some(r)
      decreases SymVisLevel(config, s), 2
    {
      hide Valid, Grows, Caches, TryEval, TryPickTri, TryPick, WellFormed, UserOk, Justified, Level;
      ValidParts();
      ExprsListed(config, s);
      var d := config.syms[s];
      GrowsSelf(Caches());
      if vis != 0 && s in userValue && userValue[s].UserTri? {
        return Computed(Min(userValue[s].t, vis), true);
      }
      var p := PickLogical(s);
      var val: Tri := if p.Some? then Min(p.value.0, p.value.1) else 0;
      var write := vis != 0 || val != 0;
      ghost var k := Caches();
      var weak := ExprValue(d.weakRevDep);
      GrowPick(config, State(), k, Caches(), d);
      GrowsOn(old(Caches()), k, Caches());
      if weak != 0 {
        k := Caches();
        var direct := ExprValue(d.directDep);
        GrowPick(config, State(), k, Caches(), d);
        GrowEval(config, State(), k, Caches(), d.weakRevDep);
        GrowsOn(old(Caches()), k, Caches());
        if direct != 0 {
          val := Max(weak, val);
          write := true;
        }
      }
      r := Computed(val, write);
    }

    method PlainValue(s: string, vis: Tri) returns (r: Computed)
      requires Valid() && s in config.syms
      modifies `cachedVis, `cachedTri, `cachedStr, `cachedAssignable, `cachedSelection
      ensures Valid() && Grows(old(Caches()), Caches())
      ensures TryPlainTri(config, State(), Caches(), s, config.syms[s], vis) == Some(r)
      decreases SymVisLevel(config, s), 3
    {
      hide Valid, Grows, State, Caches, TryEval, TryWeigh, TryActsAsBool, WellFormed, UserOk, Justified, Level;
      ValidParts();
      ExprsListed(config, s);
      var d := config.syms[s];
      var weighed := Weigh(s, vis);
      ghost var k := Caches();
      var rev := ExprValue(d.revDep);
      GrowWeigh(config, State(), k, Caches(), s, vis);
      GrowsOn(old(Caches()), k, Caches());
      r := Computed(Max(rev, weighed.val), weighed.write || rev != 0);
      if r.val == 1 {
        k := Caches();
        var b := ActsAsBoolNow(s);
        ghost var k1 := Caches();
        GrowWeigh(config, State(), k, k1, s, vis);
        GrowEval(config, State(), k, k1, d.revDep);
        GrowsOn(old(Caches()), k, k1);
        if b {
          r := r.(val := 2);
        } else {
          var weak := ExprValue(d.weakRevDep);
          GrowWeigh(config, State(), k1, Caches(), s, vis);
          GrowEval(config, State(), k1, Caches(), d.revDep);
          ValidParts();
          GrowActsAsBool(config, State(), k1, Caches(), s);
          GrowsOn(old(Caches()), k1, Caches());
          if weak == 2 { r := r.(val := 2); }
        }
      }
    }

    method ComputeTri(s: string) returns (r: Computed)
      requires Valid() && s in config.syms && config.syms[s].kind.Logical()
      modifies `cachedVis, `cachedTri, `cachedStr, `cachedAssignable, `cachedSelection
      ensures Valid() && Grows(old(Caches()), Caches())
      ensures TryTri(config, State(), Caches(), s) == Some(r)
      decreases TriLevel(config, s), 0
    {
      hide Valid, Grows, TryPlainTri, WellFormed, UserOk, Justified, Below;
      ValidParts();
      SymFacts(config, s);
      var d := config.syms[s];
      var vis := Visibility(Sym(s));
      ghost var k := Caches();
      if d.choice.None? {
        r := PlainValue(s, vis);
        GrowVis(k, Caches(), Sym(s));
        GrowsOn(old(Caches()), k, Caches());
      } else if vis == 2 {
        var sel := SelectionOf(d.choice.value);
        GrowVis(k, Caches(), Sym(s));
        GrowsOn(old(Caches()), k, Caches());
        r := Computed(if sel == Some(s) then 2 else 0, true);
      } else if vis != 0 && s in userValue && userValue[s].UserTri? && userValue[s].t != 0 {
        r := Computed(1, true);
      } else {
        r := Computed(0, vis != 0);
      }
    }

    method TriValue(s: string) returns (t: Tri)
      requires Valid()
      modifies `cachedVis, `cachedTri, `cachedStr, `cachedAssignable, `cachedSelection
      ensures Valid() && Grows(old(Caches()), Caches())
      ensures s in cachedTri && cachedTri[s].val == t
      decreases TriLevel(config, s), 1
    {
      hide WellFormed, UserOk, Justified, Grows, TryPlainTri;
      GrowsSelf(Caches());
      if s in cachedTri { return cachedTri[s].val; }
      var r := Computed(0, false);
      if s in config.syms && config.syms[s].kind.Logical() {
        r := ComputeTri(s);
      }
      ghost var k := Caches();
      AddTri(config, State(), k, s, r);
      cachedTri := cachedTri[s := r];
      GrowsOn(old(Caches()), k, Caches());
      t := r.val;
    }

    method RangeNow(s: string) returns (range: Option<(int, int)>)
      requires Valid() && s in config.syms
      modifies `cachedVis, `cachedTri, `cachedStr, `cachedAssignable, `cachedSelection
      ensures Valid() && Grows(old(Caches()), Caches())
      ensures TryRange(config, State(), Caches(), config.syms[s].ranges, config.syms[s].kind.Base()) == Some(range)
      decreases SymVisLevel(config, s), 1
    {
      hide Valid, Grows, State, Caches, TryEval, TryAtomStr, NumOrZero, WellFormed, UserOk, Justified, Level, AtomLevel;
      ValidParts();
      ExprsListed(config, s);
      var d := config.syms[s];
      var base := d.kind.Base();
      GrowsSelf(Caches());
      for n := 0 to |d.ranges|
        invariant Valid() && Grows(old(Caches()), Caches())
        invariant forall j :: 0 <= j < n ==> TryEval(config, State(), Caches(), d.ranges[j].cond) == Some(0)
      {
        ghost var k := Caches();
        var r := d.ranges[n];
        assert r in d.ranges;
        var v := ExprValue(r.cond);
        ghost var k1 := Caches();
        if v != 0 {
          var low := AtomText(r.low);
          ghost var k2 := Caches();
          var high := AtomText(r.high);
          GrowAtom(config, State(), k2, Caches(), r.low);
          GrowsOn(k1, k2, Caches());
          GrowEval(config, State(), k1, Caches(), r.cond);
          GrowsOn(k, k1, Caches());
          GrowConds(config, State(), k, Caches(), d.ranges, n);
          GrowsOn(old(Caches()), k, Caches());
          SkipRanges(config, State(), Caches(), d.ranges, n, base);
          return Some((NumOrZero(config, low, base), NumOrZero(config, high, base)));
        }
        GrowConds(config, State(), k, Caches(), d.ranges, n);
        GrowsOn(old(Caches()), k, Caches());
      }
      SkipRanges(config, State(), Caches(), d.ranges, |d.ranges|, base);
      range := None;
    }

    method PickText(s: string) returns (r: Option<string>)
      requires Valid() && s in config.syms && !config.syms[s].kind.Logical()
      modifies `cachedVis, `cachedTri, `cachedStr, `cachedAssignable, `cachedSelection
      ensures Valid() && Grows(old(Caches()), Caches())
      ensures TryPickStr(config, State(), Caches(), config.syms[s].defaults) == Some(r)
      decreases SymVisLevel(config, s), 1
    {
      hide Valid, Grows, State, Caches, TryAtomStr, TryPick, WellFormed, UserOk, Justified, AtomLevel, Below;
      var d := config.syms[s];
      ValidParts();
      SymFacts(config, s);
      ExprsListed(config, s);
      var p := PickDefault(d.defaults, 8 * config.rank(Sym(s)) + 3);
      if p.None? { return None; }
      ghost var k := Caches();
      var text := AtomText(p.value.0.a);
      GrowPick(config, State(), k, Caches(), d);
      GrowsOn(old(Caches()), k, Caches());
      r := Some(text);
    }

    method NumericValue(s: string, vis: Tri) returns (r: Text)
      requires Valid() && s in config.syms && config.syms[s].kind.Numeric()
      modifies `cachedVis, `cachedTri, `cachedStr, `cachedAssignable, `cachedSelection
      ensures Valid() && Grows(old(Caches()), Caches())
      ensures TryNumeric(config, State(), Caches(), s, config.syms[s], vis) == Some(r)
      decreases SymVisLevel(config, s), 2
    {
      hide Valid, Grows, Caches, TryRange, TryPickStr, Inside, NumOrZero, Clamp;
      var d := config.syms[s];
      var base := d.kind.Base();
      var range := RangeNow(s);
      if vis != 0 && s in userValue && userValue[s].UserText? && userValue[s].s != ""
         && Inside(range, NumOrZero(config, userValue[s].s, base)) {
        return Text(userValue[s].s, true);
      }
      ghost var k := Caches();
      var p := PickText(s);
      GrowRange(config, State(), k, Caches(), d, base);
      GrowsOn(old(Caches()), k, Caches());
      r := Text(Clamp(config, base, range, if p.Some? then p.value else ""), vis != 0 || p.Some?);
    }

    method ComputeStr(s: string) returns (r: Text)
      requires Valid() && s in config.syms && config.syms[s].kind != Unknown
      modifies `cachedVis, `cachedTri, `cachedStr, `cachedAssignable, `cachedSelection
      ensures Valid() && Grows(old(Caches()), Caches())
      ensures TryStr(config, State(), Caches(), s) == Some(r)
      decreases StrLevel(config, s), 0
    {
      hide Valid, Grows, TryNumeric, TryPickStr;
      var d := config.syms[s];
      if d.kind.Logical() {
        var t := TriValue(s);
        return Text(TriText(t), cachedTri[s].write);
      }
      var vis := Visibility(Sym(s));
      ghost var k := Caches();
      if d.kind.Numeric() {
        r := NumericValue(s, vis);
        GrowVis(k, Caches(), Sym(s));
        GrowsOn(old(Caches()), k, Caches());
      } else if vis != 0 && s in userValue && userValue[s].UserText? {
        r := Text(userValue[s].s, true);
      } else {
        var p := PickText(s);
        GrowVis(k, Caches(), Sym(s));
        GrowsOn(old(Caches()), k, Caches());
        r := Text(if p.Some? then p.value else "", vis != 0 || p.Some?);
      }
      r := Text(r.val, r.write && !d.hidden);
    }

    method StrValue(s: string) returns (r: string)
      requires Valid()
      modifies `cachedVis, `cachedTri, `cachedStr, `cachedAssignable, `cachedSelection
      ensures Valid() && Grows(old(Caches()), Caches())
      ensures s in cachedStr && cachedStr[s].val == r
      decreases StrLevel(config, s), 1
    {
      hide WellFormed, UserOk, Justified, Grows, TryNumeric, TryText;
      GrowsSelf(Caches());
      if s in cachedStr { return cachedStr[s].val; }
      var t := Text(s, false);
      if s in config.syms && config.syms[s].kind != Unknown {
        t := ComputeStr(s);
      }
      ghost var k := Caches();
      AddStr(config, State(), k, s, t);
      cachedStr := cachedStr[s := t];
      GrowsOn(old(Caches()), k, Caches());
      r := t.val;
    }

    // Assignable values

    method ComputeSymAssignable(s: string) returns (r: seq<Tri>)
      requires Valid() && s in config.syms && config.syms[s].kind.Logical()
      modifies `cachedVis, `cachedTri, `cachedStr, `cachedAssignable, `cachedSelection
      ensures Valid() && Grows(old(Caches()), Caches())
      ensures TryAssignable(config, State(), Caches(), Sym(s)) == Some(r)
    {
      hide Valid, Grows, State, TryEval, TryActsAsBool, WellFormed, UserOk, Justified, AssignableFrom;
      var d := config.syms[s];
      var vis := Visibility(Sym(s));
      if vis == 0 { return []; }
      ghost var k := Caches();
      var rev := ExprValue(d.revDep);
      GrowVis(k, Caches(), Sym(s));
      GrowsOn(old(Caches()), k, Caches());
      if (vis == 2 && d.choice.Some?) || rev == 2 { return [2]; }
      if vis == 1 && rev == 1 { return [1]; }
      ghost var k1 := Caches();
      var asBool := false;
      if vis == 2 {
        asBool := ActsAsBoolNow(s);
        GrowVis(k1, Caches(), Sym(s));
        GrowEval(config, State(), k1, Caches(), d.revDep);
        GrowsOn(old(Caches()), k1, Caches());
        if asBool { return AssignableFrom(vis, false, rev, 0, true); }
      }
      ghost var k2 := Caches();
      var weak := ExprValue(d.weakRevDep);
      GrowVis(k2, Caches(), Sym(s));
      GrowEval(config, State(), k2, Caches(), d.revDep);
      ValidParts();
      GrowActsAsBool(config, State(), k2, Caches(), s);
      GrowsOn(old(Caches()), k2, Caches());
      r := AssignableFrom(vis, false, rev, weak, false);
    }

    method ComputeAssignable(i: Item) returns (r: seq<Tri>)
      requires Valid()
      modifies `cachedVis, `cachedTri, `cachedStr, `cachedAssignable, `cachedSelection
      ensures Valid() && Grows(old(Caches()), Caches())
      ensures TryAssignable(config, State(), Caches(), i) == Some(r)
    {
      hide Valid, Grows, State, TryEval, TryActsAsBool, TryChoiceActsAsBool;
      GrowsSelf(Caches());
      match i
      case Sym(s) =>
        if s !in config.syms || !config.syms[s].kind.Logical() { return []; }
        r := ComputeSymAssignable(s);
      case Cho(c) =>
        if c !in config.choices { return []; }
        var d := config.choices[c];
        var vis := Visibility(i);
        if vis != 2 { return ChoiceAssignableFrom(vis, d.optional, false); }
        ghost var k := Caches();
        var b := ChoiceActsAsBool(c);
        GrowVis(k, Caches(), i);
        GrowsOn(old(Caches()), k, Caches());
        r := ChoiceAssignableFrom(vis, d.optional, b);
    }

    method AssignableOf(i: Item) returns (r: seq<Tri>)
      requires Valid()
      modifies `cachedVis, `cachedTri, `cachedStr, `cachedAssignable, `cachedSelection
      ensures Valid() && Grows(old(Caches()), Caches())
      ensures Get(cachedAssignable, i) == Some(r)
    {
      hide WellFormed, UserOk, Justified, Grows, TryAssignable;
      GrowsSelf(Caches());
      if i in cachedAssignable { return cachedAssignable[i]; }
      r := ComputeAssignable(i);
      ghost var k := Caches();
      AddAssignable(config, State(), k, i, r);
      cachedAssignable := cachedAssignable[i := r];
      GrowsOn(old(Caches()), k, Caches());
    }

    // Invalidation

    /** Clears everything cached for one item. */
    method Invalidate(i: Item)
      modifies `cachedVis, `cachedTri, `cachedStr, `cachedAssignable, `cachedSelection
      ensures Caches() == Without(old(Caches()), {i})
    {
      cachedVis := cachedVis - {i};
      cachedAssignable := cachedAssignable - {i};
      match i
      case Sym(s) =>
        cachedTri := cachedTri - {s};
        cachedStr := cachedStr - {s};
      case Cho(c) =>
        cachedSelection := cachedSelection - {c};
      WithoutOne(old(Caches()), Caches(), i);
    }

    method InvalidateAll() returns (ghost gone: set<Item>)
      requires Ordered(config)
      modifies `cachedVis, `cachedTri, `cachedStr, `cachedAssignable, `cachedSelection
      ensures gone == Defined(config) && Caches() == Without(old(Caches()), gone)
    {
      gone := {};
      WithoutNone(Caches());
      for n := 0 to |config.symOrder|
        invariant Caches() == Without(old(Caches()), gone)
        invariant gone == set k | 0 <= k < n :: Sym(config.symOrder[k])
      {
        WithoutTwice(old(Caches()), gone, {Sym(config.symOrder[n])});
        Invalidate(Sym(config.symOrder[n]));
        gone := gone + {Sym(config.symOrder[n])};
      }
      ghost var syms := gone;
      for n := 0 to |config.choiceOrder|
        invariant Caches() == Without(old(Caches()), gone)
        invariant gone == syms + set k | 0 <= k < n :: Cho(config.choiceOrder[k])
      {
        WithoutTwice(old(Caches()), gone, {Cho(config.choiceOrder[n])});
        Invalidate(Cho(config.choiceOrder[n]));
        gone := gone + {Cho(config.choiceOrder[n])};
      }
      OrderCoversDefined(config);
    }

    /** Clears `i` and, recursively, every dependent that is still flagged as cached; gives up at
        items that are not. On any graph, this ends, leaves no dependent of a cleared item cached, and
        clears nothing that is not downstream of `i`, unless MODULES is. */
    method RecInvalidate(i: Item) returns (ghost gone: set<Item>)
      requires Linked() && Ordered(config) && (i == Sym(MODULES) ==> MODULES in config.syms)
      modifies `cachedVis, `cachedTri, `cachedStr, `cachedAssignable, `cachedSelection
      ensures Caches() == Without(old(Caches()), gone)
      ensures i in gone && Cut(config, cachedVis, gone)
      ensures OnlyDownstream(dependents, old(cachedVis.Keys), i, gone)
      decreases |cachedVis.Keys - {i}|
    {
      assert forall j :: i in Inputs(config, j) ==> j in Of(dependents, i);
      assert forall j :: j in Of(dependents, i) ==> i in Inputs(config, j);
      hide OnlyDownstream, Pending, Cut, Without, Inputs, Linked, Ordered, Of;
      if i == Sym(MODULES) {
        gone := InvalidateAll();
        Itself(dependents, old(cachedVis.Keys), i, gone);
        EverythingCut(config, old(Caches()));
        return;
      }
      Invalidate(i);
      gone := {i};
      Itself(dependents, old(cachedVis.Keys), i, gone);
      VisWithout(old(Caches()), gone);
      var todo := Of(dependents, i);
      PendingStart(config, cachedVis, i, todo);
      while todo != {}
        invariant Caches() == Without(old(Caches()), gone) && cachedVis == old(cachedVis) - gone
        invariant i in gone && todo <= Of(dependents, i) && OnlyDownstream(dependents, old(cachedVis.Keys), i, gone)
        invariant Pending(config, cachedVis, gone, i, todo)
        decreases todo
      {
        var item :| item in todo;
        ghost var k := Caches();
        if item in cachedVis {
          assert i in Inputs(config, item);
          ghost var more := RecInvalidate(item);
          WithoutTwice(old(Caches()), gone, more);
          VisWithout(k, more);
          MoreDownstream(dependents, old(cachedVis.Keys), k.vis.Keys, i, item, gone, more);
          PendingMore(config, k.vis, gone, i, todo, item, more);
          gone := gone + more;
        } else {
          PendingLess(config, cachedVis, gone, i, todo, item);
        }
        todo := todo - {item};
      }
      PendingDone(config, cachedVis, gone, i);
    }

    // Building the dependency graph

    /** _depend_on(): registers `i` with every item in `e`. */
    method DependOn(i: Item, e: Expr)
      modifies `dependents
      ensures forall d, j :: j in Of(dependents, d) <==>
                j in Of(old(dependents), d) || (j == i && d in Items(e))
      decreases e
    {
      match e
      case Leaf(a) => DependOnAtom(i, a);
      case And(l, r) => DependOn(i, l); DependOn(i, r);
      case Or(l, r) => DependOn(i, l); DependOn(i, r);
      case Not(f) => DependOn(i, f);
      case Rel(_, x, y) => DependOnAtom(i, x); DependOnAtom(i, y);
    }

    method DependOnAtom(i: Item, a: Atom)
      modifies `dependents
      ensures forall d, j :: j in Of(dependents, d) <==>
                j in Of(old(dependents), d) || (j == i && d in AtomItems(a))
    {
      if a.Ref? {
        dependents := dependents[a.item := Of(dependents, a.item) + {i}];
      }
    }

    method DependOnAll(i: Item, es: seq<Expr>)
      modifies `dependents
      ensures forall d, j :: j in Of(dependents, d) <==>
                j in Of(old(dependents), d) || (j == i && d in ItemsOfAll(es))
    {
      for n := 0 to |es|
        invariant forall d, j :: j in Of(dependents, d) <==>
                    j in Of(old(dependents), d) || (j == i && d in ItemsOfAll(es[..n]))
      {
        DependOn(i, es[n]);
        ItemsOfAllGrows(es, n);
      }
      assert es[..|es|] == es;
    }

    /** _build_dep(), for the symbols. */
    method DependSyms()
      requires Ordered(config) && dependents == map[]
      modifies `dependents
      ensures forall d, j :: j in Of(dependents, d) <==> j.Sym? && d in Inputs(config, j)
    {
      for n := 0 to |config.symOrder|
        invariant forall d, j :: j in Of(dependents, d) <==>
                    (j.Sym? && j.name in config.symOrder[..n] && d in Inputs(config, j))
      {
        var s := config.symOrder[n];
        assert s in config.symOrder;
        DependOnAll(Sym(s), SymExprs(config.syms[s]));
        assert config.symOrder[..n + 1] == config.symOrder[..n] + [s];
      }
      assert config.symOrder[..|config.symOrder|] == config.symOrder;
    }

    /** _build_dep() for the choices, and _add_choice_deps(). */
    method DependChoices()
      requires Ordered(config) && forall d, j :: j in Of(dependents, d) <==> j.Sym? && d in Inputs(config, j)
      modifies `dependents
      ensures Linked()
    {
      forall d, j
        ensures j in Of(dependents, d) <==> (d in Inputs(config, j) && (j.Cho? ==> j.id in config.choiceOrder[..0]))
      {
        if j.Sym? { assert j in Of(dependents, d) <==> d in Inputs(config, j); }
        else { assert j !in Of(dependents, d); }
      }
      for n := 0 to |config.choiceOrder|
        invariant forall d, j :: j in Of(dependents, d) <==>
                    (d in Inputs(config, j) && (j.Cho? ==> j.id in config.choiceOrder[..n]))
      {
        var c := config.choiceOrder[n];
        assert c in config.choiceOrder;
        var d := config.choices[c];
        var members := seq(|d.syms|, k requires 0 <= k < |d.syms| => Leaf(Ref(Sym(d.syms[k]))));
        DependOnAll(Cho(c), ChoiceExprs(d));
        DependOnAll(Cho(c), members);
        MembersAsExprs(d.syms, members);
        assert config.choiceOrder[..n + 1] == config.choiceOrder[..n] + [c];
      }
      assert config.choiceOrder[..|config.choiceOrder|] == config.choiceOrder;
      InputsDefined(config);
    }

    /** _build_dep() and _add_choice_deps(). */
    method BuildDep()
      requires Ordered(config) && dependents == map[]
      modifies `dependents
      ensures Linked()
    {
      DependSyms();
      DependChoices();
    }

    constructor (cfg: Config)
      requires WellFormed(cfg) && Ordered(cfg)
      ensures config == cfg && State() == NO_USER && wasSet == {} && Caches() == EMPTY
      ensures Valid() && Ready()
    {
      config := cfg;
      userValue, userMode, userSelection, wasSet := map[], map[], map[], {};
      cachedVis, cachedTri, cachedStr, cachedAssignable, cachedSelection := map[], map[], map[], map[], map[];
      dependents := map[];
      new;
      BuildDep();
    }

    /** What assignments need besides `Valid`. */
    ghost predicate Ready()
      reads `dependents
    {
      Ordered(config) && Linked()
    }

    ghost function Now(): Session
      reads `userValue, `userMode, `userSelection, `wasSet
    {
      Session(State(), wasSet)
    }

    // Assignments

    method InvalidateIfHasPrompt(s: string) returns (ghost gone: set<Item>)
      requires Ready() && s in config.syms
      modifies `cachedVis, `cachedTri, `cachedStr, `cachedAssignable, `cachedSelection
      ensures Caches() == Without(old(Caches()), gone) && Cut(config, cachedVis, gone)
      ensures Sym(s) in gone || config.syms[s].prompts == []
    {
      if config.syms[s].prompts != [] {
        gone := RecInvalidate(Sym(s));
      } else {
        gone := {};
        WithoutNone(Caches());
      }
    }

    /** The part of set_value() that stores an accepted value. */
    method Store(s: string, value: UserValue)
      requires Valid() && Ready() && s in config.syms
      requires UserOk(config, Stored(config, Now(), s, value).u)
      modifies `userValue, `userSelection, `wasSet, `cachedVis, `cachedTri, `cachedStr, `cachedAssignable,
               `cachedSelection
      ensures Valid() && Ready()
      ensures Now() == Stored(config, old(Now()), s, value)
    {
      hide WellFormed, UserOk, Justified, Cut, Without, Linked, Ordered;
      var d := config.syms[s];
      userValue := userValue[s := value];
      wasSet := wasSet + {Sym(s)};
      ghost var gone;
      if d.choice.Some? && value == UserTri(2) {
        userSelection := userSelection[d.choice.value := s];
        wasSet := wasSet + {Cho(d.choice.value)};
        assert wasSet == old(wasSet) + {Sym(s), Cho(d.choice.value)};
        gone := RecInvalidate(Cho(d.choice.value));
      } else {
        gone := InvalidateIfHasPrompt(s);
      }
      SymAssigned(config, old(State()), old(Caches()), State(), s, gone);
      InvalidationKeeps(config, old(State()), old(Caches()), State(), gone);
    }

    method SetValue(s: string, v: UserValue) returns (ok: bool)
      requires Valid() && Ready()
      modifies `userValue, `userSelection, `wasSet, `cachedVis, `cachedTri, `cachedStr, `cachedAssignable,
               `cachedSelection
      ensures Valid() && Ready()
      ensures (Now(), ok) == SetSym(config, old(Now()), s, v)
    {
      hide WellFormed, UserOk, Justified, Linked, Ordered, Normal, ValidFor;
      if s !in config.syms { return false; }
      var d := config.syms[s];
      var value := Normal(d.kind, v);
      if Get(userValue, s) == Some(value) && d.choice.None? {
        wasSet := wasSet + {Sym(s)};
        return true;
      }
      if !ValidFor(config, d.kind, value) { return false; }
      StoredOk(config, Now(), s, value);
      Store(s, value);
      ok := true;
    }

    method UnsetValue(s: string)
      requires Valid() && Ready()
      modifies `userValue, `cachedVis, `cachedTri, `cachedStr, `cachedAssignable, `cachedSelection
      ensures Valid() && Ready()
      ensures State() == UnsetSym(old(State()), s)
    {
      hide WellFormed, Justified, Cut, Without, Linked, Ordered, ValidFor;
      if s in userValue {
        userValue := userValue - {s};
        ghost var gone := InvalidateIfHasPrompt(s);
        SymAssigned(config, old(State()), old(Caches()), State(), s, gone);
        InvalidationKeeps(config, old(State()), old(Caches()), State(), gone);
      } else {
        assert userValue - {s} == userValue;
      }
    }

    method SetChoiceMode(c: nat, t: Tri) returns (ok: bool)
      requires Valid() && Ready()
      modifies `userMode, `wasSet, `cachedVis, `cachedTri, `cachedStr, `cachedAssignable, `cachedSelection
      ensures Valid() && Ready()
      ensures (Now(), ok) == SetMode(config, old(Now()), c, t)
    {
      hide WellFormed, Justified, Cut, Without, Linked, Ordered, ValidFor;
      if c !in config.choices { return false; }
      if Get(userMode, c) == Some(t) {
        wasSet := wasSet + {Cho(c)};
        return true;
      }
      if !ValidFor(config, config.choices[c].kind, UserTri(t)) { return false; }
      userMode := userMode[c := t];
      wasSet := wasSet + {Cho(c)};
      ghost var gone := RecInvalidate(Cho(c));
      InvalidationKeeps(config, old(State()), old(Caches()), State(), gone);
      ok := true;
    }

    method UnsetChoiceMode(c: nat)
      requires Valid() && Ready()
      modifies `userMode, `userSelection, `cachedVis, `cachedTri, `cachedStr, `cachedAssignable, `cachedSelection
      ensures Valid() && Ready()
      ensures State() == UnsetChoice(old(State()), c)
    {
      hide WellFormed, Justified, Cut, Without, Linked, Ordered, ValidFor;
      if c in userMode || c in userSelection {
        userMode := userMode - {c};
        userSelection := userSelection - {c};
        ghost var gone := RecInvalidate(Cho(c));
        InvalidationKeeps(config, old(State()), old(Caches()), State(), gone);
      } else {
        assert userMode - {c} == userMode && userSelection - {c} == userSelection;
      }
    }

    // Loading

    method LoadTriValue(s: string, t: Tri)
      requires Valid() && Ready() && s in config.syms
      modifies `userValue, `userMode, `userSelection, `wasSet, `cachedVis, `cachedTri, `cachedStr, `cachedAssignable,
               `cachedSelection
      ensures Valid() && Ready() && Now() == LoadTri(config, old(Now()), s, t)
    {
      hide Valid, Ready, SetSym, SetMode;
      if config.syms[s].choice.Some? && t != 0 {
        var _ := SetChoiceMode(config.syms[s].choice.value, t);
      }
      var _ := SetValue(s, UserTri(t));
    }

    method LoadAssignment(s: string, val: string)
      requires Valid() && Ready()
      modifies `userValue, `userMode, `userSelection, `wasSet, `cachedVis, `cachedTri, `cachedStr, `cachedAssignable,
               `cachedSelection
      ensures Valid() && Ready() && Now() == LoadValue(config, old(Now()), s, val)
    {
      hide Valid, Ready, SetSym, LoadTri, QuotedMatch, Unescape, KeyPrefix, TriOfChar;
      if s !in config.syms { return; }
      match config.syms[s].kind
      case Bool =>
        if val != [] && (val[0] == 'y' || val[0] == 'n') { LoadTriValue(s, TriOfChar(val[0])); }
      case Tristate =>
        if val != [] && (val[0] == 'y' || val[0] == 'm' || val[0] == 'n') { LoadTriValue(s, TriOfChar(val[0])); }
      case Str =>
        var raw := QuotedMatch(val);
        if raw.Some? { var _ := SetValue(s, UserText(Unescape(raw.value))); }
      case Key => var _ := SetValue(s, UserText(Unescape(KeyPrefix(val))));
      case _ => var _ := SetValue(s, UserText(val));
    }

    method LoadOneLine(line: string)
      requires Valid() && Ready()
      modifies `userValue, `userMode, `userSelection, `wasSet, `cachedVis, `cachedTri, `cachedStr, `cachedAssignable,
               `cachedSelection
      ensures Valid() && Ready() && Now() == LoadLine(config, old(Now()), line)
    {
      hide Valid, Ready, SetSym, LoadValue, SetMatch, UnsetMatch, RStrip;
      var stripped := RStrip(line);
      var set_ := SetMatch(stripped);
      if set_.Some? {
        LoadAssignment(set_.value.0, set_.value.1);
      } else {
        var unset := UnsetMatch(stripped);
        if unset.Some? && unset.value in config.syms && config.syms[unset.value].kind.Logical() {
          var _ := SetValue(unset.value, UserTri(0));
        }
      }
    }

    method UnsetUnmarkedSyms()
      requires Valid() && Ready()
      modifies `userValue, `cachedVis, `cachedTri, `cachedStr, `cachedAssignable, `cachedSelection
      ensures Valid() && Ready()
      ensures forall s :: Get(userValue, s) ==
                if s in config.symOrder && Sym(s) !in wasSet then None else Get(old(userValue), s)
    {
      hide Valid, Linked;
      for n := 0 to |config.symOrder|
        invariant Valid() && Ready()
        invariant forall s :: Get(userValue, s) ==
                    if s in config.symOrder[..n] && Sym(s) !in wasSet then None else Get(old(userValue), s)
      {
        var s := config.symOrder[n];
        assert s in config.symOrder;
        if Sym(s) !in wasSet { UnsetValue(s); }
        assert config.symOrder[..n + 1] == config.symOrder[..n] + [s];
      }
      assert config.symOrder[..|config.symOrder|] == config.symOrder;
    }

    method UnsetUnmarkedChoices()
      requires Valid() && Ready()
      modifies `userMode, `userSelection, `cachedVis, `cachedTri, `cachedStr, `cachedAssignable, `cachedSelection
      ensures Valid() && Ready()
      ensures forall c: nat :: Get(userMode, c) ==
                if c in config.choiceOrder && Cho(c) !in wasSet then None else Get(old(userMode), c)
      ensures forall c: nat :: Get(userSelection, c) ==
                if c in config.choiceOrder && Cho(c) !in wasSet then None else Get(old(userSelection), c)
    {
      hide Valid, Linked;
      for n := 0 to |config.choiceOrder|
        invariant Valid() && Ready()
        invariant forall c: nat :: Get(userMode, c) ==
                    if c in config.choiceOrder[..n] && Cho(c) !in wasSet then None else Get(old(userMode), c)
        invariant forall c: nat :: Get(userSelection, c) ==
                    if c in config.choiceOrder[..n] && Cho(c) !in wasSet then None else Get(old(userSelection), c)
      {
        var c := config.choiceOrder[n];
        assert c in config.choiceOrder;
        if Cho(c) !in wasSet { UnsetChoiceMode(c); }
        assert config.choiceOrder[..n + 1] == config.choiceOrder[..n] + [c];
      }
      assert config.choiceOrder[..|config.choiceOrder|] == config.choiceOrder;
    }

    method UnsetTheRest()
      requires Valid() && Ready()
      modifies `userValue, `userMode, `userSelection, `cachedVis, `cachedTri, `cachedStr, `cachedAssignable,
               `cachedSelection
      ensures Valid() && Ready() && State() == UnsetUnmarked(old(State()), wasSet)
    {
      ValidParts();
      hide Valid, Linked, WellFormed, UserOk, Justified, UnsetUnmarked;
      UnsetUnmarkedSyms();
      UnsetUnmarkedChoices();
      UnsetAll(config, old(State()), State(), wasSet);
    }

    /** _load_config(): merging, or replacing what was there. */
    method LoadConfig(lines: seq<string>, replace: bool)
      requires Valid() && Ready()
      modifies `userValue, `userMode, `userSelection, `wasSet, `cachedVis, `cachedTri, `cachedStr, `cachedAssignable,
               `cachedSelection
      ensures Valid() && Ready()
      ensures if replace then
                State() == LoadReplace(config, old(State()), lines) &&
                wasSet == LoadLines(config, Session(old(State()), {}), lines).marks
              else Now() == LoadLines(config, old(Now()), lines)
    {
      hide WellFormed, UserOk, Justified, Linked, Ordered, LoadLine, UnsetUnmarked;
      if replace { wasSet := {}; }
      ghost var start := Now();
      for n := 0 to |lines|
        invariant Valid() && Ready() && Now() == LoadLines(config, start, lines[..n])
      {
        LoadOneLine(lines[n]);
        assert lines[..n + 1][..n] == lines[..n];
      }
      assert lines[..|lines|] == lines;
      if replace { UnsetTheRest(); }
    }

    // Reading, in terms of the cache-free values

    method ReadTri(s: string) returns (t: Tri)
      requires Valid()
      modifies `cachedVis, `cachedTri, `cachedStr, `cachedAssignable, `cachedSelection
      ensures Valid() && Grows(old(Caches()), Caches())
      ensures t == SymTri(config, State(), s).val
    {
      hide WellFormed, UserOk, Justified, Grows, SymTri;
      t := TriValue(s);
      TriSound(config, State(), Caches(), s);
    }

    method ReadExpr(e: Expr) returns (t: Tri)
      requires Valid()
      modifies `cachedVis, `cachedTri, `cachedStr, `cachedAssignable, `cachedSelection
      ensures Valid() && Grows(old(Caches()), Caches())
      ensures t == Eval(config, State(), e)
    {
      hide WellFormed, UserOk, Justified, Grows, Eval, TryEval;
      t := ExprValue(e);
      EvalSound(config, State(), Caches(), e);
    }

    method ReadComparison(x: Atom, y: Atom) returns (cmp: int)
      requires Valid()
      modifies `cachedVis, `cachedTri, `cachedStr, `cachedAssignable, `cachedSelection
      ensures Valid() && Grows(old(Caches()), Caches())
      ensures cmp == Compare(config, State(), x, y)
    {
      hide WellFormed, UserOk, Justified, Grows, Compare, TryCompare;
      cmp := CompareAtoms(x, y);
      CompareSound(config, State(), Caches(), x, y);
    }

    method ReadVisibility(i: Item) returns (vis: Tri)
      requires Valid()
      modifies `cachedVis, `cachedTri, `cachedStr, `cachedAssignable, `cachedSelection
      ensures Valid() && Grows(old(Caches()), Caches())
      ensures vis == Vis(config, State(), i)
    {
      hide WellFormed, UserOk, Justified, Grows, SymVis, ChoiceVis;
      vis := Visibility(i);
      match i
      case Sym(s) => SymVisSound(config, State(), Caches(), s);
      case Cho(c) => ChoiceVisSound(config, State(), Caches(), c);
    }

    method ReadMode(c: nat) returns (mode: Tri)
      requires Valid()
      modifies `cachedVis, `cachedTri, `cachedStr, `cachedAssignable, `cachedSelection
      ensures Valid() && Grows(old(Caches()), Caches())
      ensures mode == Mode(config, State(), c)
    {
      hide WellFormed, UserOk, Justified, Grows, Mode, TryMode;
      mode := ChoiceMode(c);
      ModeSound(config, State(), Caches(), c);
    }

    method ReadSelection(c: nat) returns (sel: Option<string>)
      requires Valid()
      modifies `cachedVis, `cachedTri, `cachedStr, `cachedAssignable, `cachedSelection
      ensures Valid() && Grows(old(Caches()), Caches())
      ensures sel == Selection(config, State(), c)
    {
      hide WellFormed, UserOk, Justified, Grows, Selection;
      sel := SelectionOf(c);
      SelectionSound(config, State(), Caches(), c);
    }

    method ReadAssignable(i: Item) returns (r: seq<Tri>)
      requires Valid()
      modifies `cachedVis, `cachedTri, `cachedStr, `cachedAssignable, `cachedSelection
      ensures Valid() && Grows(old(Caches()), Caches())
      ensures r == Assignable(config, State(), i)
    {
      hide WellFormed, UserOk, Justified, Grows, Assignable;
      r := AssignableOf(i);
      CachedAssignable(config, State(), Caches(), i);
    }

    /** str_value, and whether there is a .config entry. */
    method ReadText(s: string) returns (t: Text)
      requires Valid()
      modifies `cachedVis, `cachedTri, `cachedStr, `cachedAssignable, `cachedSelection
      ensures Valid() && Grows(old(Caches()), Caches())
      ensures t == SymStr(config, State(), s)
    {
      hide WellFormed, UserOk, Justified, Grows, SymStr;
      var _ := StrValue(s);
      StrSound(config, State(), Caches(), s);
      t := cachedStr[s];
    }

    // Writing

    /** config_string, without the line end. */
    method ConfigString(s: string) returns (line: Option<string>)
      requires Valid()
      modifies `cachedVis, `cachedTri, `cachedStr, `cachedAssignable, `cachedSelection
      ensures Valid() && Grows(old(Caches()), Caches())
      ensures line == ConfigLine(config, State(), s)
    {
      hide Valid, Grows, State, Caches, EntryOf, SymStr;
      var t := ReadText(s);
      if !t.write || s !in config.syms { return None; }
      line := Some(EntryOf(config.syms[s].kind, s, t.val));
    }

    /** _config_contents(), symbol entries only. */
    method WriteConfig() returns (lines: seq<string>)
      requires Valid() && Ready()
      modifies `cachedVis, `cachedTri, `cachedStr, `cachedAssignable, `cachedSelection
      ensures Valid() && Grows(old(Caches()), Caches())
      ensures lines == ConfigLines(config, State())
    {
      hide Valid, Grows, State, Caches, ConfigLine, WellFormed, UserOk, Justified, Linked;
      lines := [];
      GrowsSelf(Caches());
      ValidParts();
      ghost var all := config.syms.Keys;
      for n := 0 to |config.symOrder|
        invariant Valid() && Grows(old(Caches()), Caches())
        invariant WellFormed(config) && lines == EntriesOf(config, State(), config.symOrder[..n], all)
      {
        ghost var k := Caches();
        assert config.symOrder[n] in config.symOrder;
        var line := ConfigString(config.symOrder[n]);
        GrowsOn(old(Caches()), k, Caches());
        ValidParts();
        assert config.symOrder[..n + 1][..n] == config.symOrder[..n];
        if line.Some? { lines := lines + [line.value]; }
      }
      assert config.symOrder[..|config.symOrder|] == config.symOrder;
    }

    /** _str_default() of a logical symbol outside choices. */
    method LogicalDefault(s: string) returns (r: string)
      requires Valid() && s in config.syms && config.syms[s].kind.Logical() && config.syms[s].choice.None?
      modifies `cachedVis, `cachedTri, `cachedStr, `cachedAssignable, `cachedSelection
      ensures Valid() && Grows(old(Caches()), Caches())
      ensures r == StrDefault(config, State(), s)
    {
      hide Valid, Grows, State, Caches, WellFormed, UserOk, Justified, Eval, TryEval, PickTri, TryPickTri,
           ActsAsBool, TryActsAsBool, TriText;
      var d := config.syms[s];
      var p := PickLogical(s);
      ValidParts();
      PickTriSound(config, State(), Caches(), s);
      ghost var k1 := Caches();
      var rev := ExprValue(d.revDep);
      ValidParts();
      EvalSound(config, State(), Caches(), d.revDep);
      GrowsOn(old(Caches()), k1, Caches());
      ghost var k2 := Caches();
      var weak := ExprValue(d.weakRevDep);
      ValidParts();
      EvalSound(config, State(), Caches(), d.weakRevDep);
      GrowsOn(old(Caches()), k2, Caches());
      var val: Tri := if p.Some? then Min(p.value.0, p.value.1) else 0;
      val := Max(Max(rev, weak), val);
      if val == 1 {
        ghost var k3 := Caches();
        var b := ActsAsBoolNow(s);
        ValidParts();
        ActsAsBoolSound(config, State(), Caches(), s);
        GrowsOn(old(Caches()), k3, Caches());
        if b { val := 2; }
      }
      r := TriText(val);
    }

    method ComputeStrDefault(s: string) returns (r: string)
      requires Valid() && s in config.syms
      modifies `cachedVis, `cachedTri, `cachedStr, `cachedAssignable, `cachedSelection
      ensures Valid() && Grows(old(Caches()), Caches())
      ensures r == StrDefault(config, State(), s)
    {
      hide Valid, Grows, State, Caches, WellFormed, UserOk, Justified, PickStr, TryPickStr, PickTri, Eval,
           ActsAsBool, TriText;
      GrowsSelf(Caches());
      var d := config.syms[s];
      if d.kind.Logical() {
        if d.choice.Some? { return "n"; }
        r := LogicalDefault(s);
      } else if d.kind == Unknown {
        r := "";
      } else {
        var p := PickText(s);
        ValidParts();
        PickStrSound(config, State(), Caches(), s);
        r := if p.Some? then p.value else "";
      }
    }

    /** The last test of _min_config_contents(): selected by default anyway. */
    method SelectedByDefault(s: string) returns (b: bool)
      requires Valid() && s in config.syms
      modifies `cachedVis, `cachedTri, `cachedStr, `cachedAssignable, `cachedSelection
      ensures Valid() && Grows(old(Caches()), Caches())
      ensures var d := config.syms[s];
              b == (d.choice.Some? && d.choice.value in config.choices && !config.choices[d.choice.value].optional
                    && DefaultFrom(config, State(), d.choice.value, config.choices[d.choice.value].defaults) == Some(s)
                    && d.kind == Bool && SymTri(config, State(), s).val == 2)
    {
      hide Valid, Grows, State, WellFormed, UserOk, Justified, DefaultFrom, TryDefaultFrom, SymTri;
      GrowsSelf(Caches());
      var d := config.syms[s];
      if d.choice.None? || d.choice.value !in config.choices { return false; }
      if config.choices[d.choice.value].optional { return false; }
      var c := d.choice.value;
      var sel := SelectionFromDefaults(c);
      ValidParts();
      DefaultFromSound(config, State(), Caches(), c, config.choices[c].defaults);
      if sel != Some(s) || d.kind != Bool { return false; }
      ghost var k := Caches();
      var t := ReadTri(s);
      GrowsOn(old(Caches()), k, Caches());
      b := t == 2;
    }

    /** The first test of _min_config_contents(): nothing to change. */
    method CannotChange(s: string) returns (b: bool)
      requires Valid() && s in config.syms
      modifies `cachedVis, `cachedTri, `cachedStr, `cachedAssignable, `cachedSelection
      ensures Valid() && Grows(old(Caches()), Caches())
      ensures var d := config.syms[s];
              b == (d.choice.None? && SymVis(config, State(), s) <= Eval(config, State(), d.revDep))
    {
      hide Valid, Grows, State, WellFormed, UserOk, Justified, SymVis, Eval, TryEval;
      GrowsSelf(Caches());
      if config.syms[s].choice.Some? { return false; }
      var vis := Visibility(Sym(s));
      ValidParts();
      SymVisSound(config, State(), Caches(), s);
      ghost var k := Caches();
      var rev := ExprValue(config.syms[s].revDep);
      ValidParts();
      EvalSound(config, State(), Caches(), config.syms[s].revDep);
      GrowsOn(old(Caches()), k, Caches());
      b := vis <= rev;
    }

    method KeepInMin(s: string) returns (b: bool)
      requires Valid() && s in config.syms
      modifies `cachedVis, `cachedTri, `cachedStr, `cachedAssignable, `cachedSelection
      ensures Valid() && Grows(old(Caches()), Caches())
      ensures b == MinKeeps(config, State(), s)
    {
      hide Valid, Grows, State, WellFormed, UserOk, Justified, DefaultFrom, SymTri, SymStr, SymVis, Eval, StrDefault;
      ValidParts();
      var fixed := CannotChange(s);
      if fixed { return false; }
      ghost var k := Caches();
      var t := ReadText(s);
      GrowsOn(old(Caches()), k, Caches());
      k := Caches();
      var default_ := ComputeStrDefault(s);
      GrowsOn(old(Caches()), k, Caches());
      if t.val == default_ { return false; }
      k := Caches();
      b := SelectedByDefault(s);
      GrowsOn(old(Caches()), k, Caches());
      b := !b;
    }

    /** _min_config_contents(), without header. */
    method WriteMinConfig() returns (lines: seq<string>)
      requires Valid() && Ready()
      modifies `cachedVis, `cachedTri, `cachedStr, `cachedAssignable, `cachedSelection
      ensures Valid() && Grows(old(Caches()), Caches())
      ensures lines == MinConfigLines(config, State())
    {
      hide Valid, Grows, State, Caches, ConfigLine, WellFormed, UserOk, Justified, Linked, MinKeeps;
      lines := [];
      GrowsSelf(Caches());
      ValidParts();
      for n := 0 to |config.symOrder|
        invariant Valid() && Grows(old(Caches()), Caches())
        invariant WellFormed(config)
        invariant lines == EntriesOf(config, State(), config.symOrder[..n], MinKept(config, State()))
      {
        ghost var k := Caches();
        var s := config.symOrder[n];
        assert s in config.symOrder;
        assert config.symOrder[..n + 1][..n] == config.symOrder[..n];
        var keep := KeepInMin(s);
        GrowsOn(old(Caches()), k, Caches());
        if keep {
          ghost var k' := Caches();
          var line := ConfigString(s);
          GrowsOn(old(Caches()), k', Caches());
          if line.Some? { lines := lines + [line.value]; }
        }
        ValidParts();
      }
      assert config.symOrder[..|config.symOrder|] == config.symOrder;
    }
  }
}
