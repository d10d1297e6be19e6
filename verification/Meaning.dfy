/** What values mean to somebody who knows the configuration language but not the code: each law says
    what a value, visibility, mode or selection is in terms of the properties of the item. */
module KconfigMeaning {
  import opened Basics
  import opened KconfigModel
  import opened KconfigValues

  // Expressions

  lemma AndMeans(cfg: Config, u: User, a: Expr, b: Expr, t: Tri)
    requires WellFormed(cfg)
    ensures t <= Eval(cfg, u, And(a, b)) <==> t <= Eval(cfg, u, a) && t <= Eval(cfg, u, b)
    ensures t <= Eval(cfg, u, Or(a, b)) <==> t <= Eval(cfg, u, a) || t <= Eval(cfg, u, b)
    ensures t <= Eval(cfg, u, Not(a)) <==> Eval(cfg, u, a) <= 2 - t
  {
    hide WellFormed;
  }

  lemma LeafMeans(cfg: Config, u: User, s: string, c: nat, t: Tri, text: string)
    requires WellFormed(cfg)
    ensures Eval(cfg, u, Leaf(Ref(Sym(s)))) == SymTri(cfg, u, s).val
    ensures Eval(cfg, u, Leaf(Ref(Cho(c)))) == Mode(cfg, u, c)
    ensures Eval(cfg, u, Leaf(Nmy(t))) == t && Eval(cfg, u, Leaf(Quoted(text))) == 0
  {
    hide WellFormed, SymTriWith, ModeWith;
  }

  /** `a` comes before `b` in the dictionary. */
  ghost predicate Precedes(a: string, b: string) {
    exists k :: IsPrefixed(a, b, k) && k < |b| && (k == |a| || a[k] < b[k])
  }

  /** The first `k` characters are the same. */
  predicate IsPrefixed(a: string, b: string, k: int) {
    0 <= k <= |a| && k <= |b| && forall i :: 0 <= i < k ==> a[i] == b[i]
  }

  lemma {:induction false} StrCmpMeans(a: string, b: string)
    ensures StrCmp(a, b) == 0 <==> a == b
    ensures StrCmp(a, b) < 0 ==> Precedes(a, b)
    ensures StrCmp(a, b) > 0 ==> Precedes(b, a)
  {
    if a == [] || b == [] {
      assert IsPrefixed(a, b, 0) && IsPrefixed(b, a, 0);
    } else if a[0] != b[0] {
      assert IsPrefixed(a, b, 0) && IsPrefixed(b, a, 0);
    } else {
      StrCmpMeans(a[1..], b[1..]);
      assert a == [a[0]] + a[1..] && b == [b[0]] + b[1..];
      if StrCmp(a[1..], b[1..]) < 0 { PrecedesLater(a, b); }
      if StrCmp(a[1..], b[1..]) > 0 { PrecedesLater(b, a); }
    }
  }

  lemma PrecedesLater(a: string, b: string)
    requires a != [] && b != [] && a[0] == b[0] && Precedes(a[1..], b[1..])
    ensures Precedes(a, b)
  {
    var k :| IsPrefixed(a[1..], b[1..], k) && k < |b[1..]| && (k == |a[1..]| || a[1..][k] < b[1..][k]);
    assert forall i :: 0 < i <= k ==> a[i] == a[1..][i - 1] && b[i] == b[1..][i - 1];
    assert IsPrefixed(a, b, k + 1);
  }

  lemma PrecedesOnce(a: string, b: string)
    ensures !(Precedes(a, b) && Precedes(b, a)) && !Precedes(a, a)
  {
  }

  /** Which of two strings compares less. */
  lemma StrCmpOrders(a: string, b: string)
    ensures StrCmp(a, b) == 0 <==> a == b
    ensures StrCmp(a, b) < 0 <==> Precedes(a, b)
  {
    hide Precedes, StrCmp;
    StrCmpMeans(a, b);
    PrecedesOnce(a, b);
    PrecedesOnce(b, b);
  }

  /** The two sides are compared as numbers. */
  predicate ComparesNumbers(cfg: Config, u: User, x: Atom, y: Atom)
    requires WellFormed(cfg)
  {
    && !(KindOf(cfg, x) == KindOf(cfg, y) && (KindOf(cfg, x) == Str || KindOf(cfg, x) == Key))
    && AtomNum(cfg, u, x).Some? && AtomNum(cfg, u, y).Some?
  }

  /** A relation is y or n. Numbers are related as numbers are, everything else as text in dictionary
      order. */
  lemma RelMeans(cfg: Config, u: User, x: Atom, y: Atom)
    requires WellFormed(cfg)
    ensures forall op :: Eval(cfg, u, Rel(op, x, y)) == 0 || Eval(cfg, u, Rel(op, x, y)) == 2
    ensures ComparesNumbers(cfg, u, x, y) ==>
              var j, k := AtomNum(cfg, u, x).value, AtomNum(cfg, u, y).value;
              && (Eval(cfg, u, Rel(Eq, x, y)) == 2 <==> j == k) && (Eval(cfg, u, Rel(Ne, x, y)) == 2 <==> j != k)
              && (Eval(cfg, u, Rel(Lt, x, y)) == 2 <==> j < k) && (Eval(cfg, u, Rel(Le, x, y)) == 2 <==> j <= k)
              && (Eval(cfg, u, Rel(Gt, x, y)) == 2 <==> j > k) && (Eval(cfg, u, Rel(Ge, x, y)) == 2 <==> j >= k)
    ensures !ComparesNumbers(cfg, u, x, y) ==>
              var a, b := AtomStr(cfg, u, x), AtomStr(cfg, u, y);
              && (Eval(cfg, u, Rel(Eq, x, y)) == 2 <==> a == b) && (Eval(cfg, u, Rel(Ne, x, y)) == 2 <==> a != b)
              && (Eval(cfg, u, Rel(Lt, x, y)) == 2 <==> Precedes(a, b))
              && (Eval(cfg, u, Rel(Le, x, y)) == 2 <==> Precedes(a, b) || a == b)
              && (Eval(cfg, u, Rel(Gt, x, y)) == 2 <==> !Precedes(a, b) && a != b)
              && (Eval(cfg, u, Rel(Ge, x, y)) == 2 <==> !Precedes(a, b))
  {
    hide WellFormed, AtomNum, AtomStr, StrCmp, Precedes, KindOf;
    StrCmpOrders(AtomStr(cfg, u, x), AtomStr(cfg, u, y));
    PrecedesOnce(AtomStr(cfg, u, x), AtomStr(cfg, u, x));
  }

  /** What an atom is as text and as a number. */
  lemma AtomMeans(cfg: Config, u: User, s: string, c: nat, t: Tri)
    requires WellFormed(cfg)
    ensures AtomStr(cfg, u, Quoted(s)) == s && AtomNum(cfg, u, Quoted(s)) == cfg.parse(s, 0)
    ensures AtomStr(cfg, u, Nmy(t)) == (if t == 0 then "n" else if t == 1 then "m" else "y")
    ensures AtomNum(cfg, u, Nmy(t)) == Some(t) && AtomStr(cfg, u, Ref(Cho(c))) == AtomStr(cfg, u, Nmy(Mode(cfg, u, c)))
    ensures AtomStr(cfg, u, Ref(Sym(s))) == SymStr(cfg, u, s).val
    ensures s in cfg.syms && cfg.syms[s].kind.Logical() ==>
              AtomNum(cfg, u, Ref(Sym(s))) == Some(SymTri(cfg, u, s).val)
    ensures s in cfg.syms && cfg.syms[s].kind == Int ==>
              AtomNum(cfg, u, Ref(Sym(s))) == cfg.parse(SymStr(cfg, u, s).val, 10)
    ensures s in cfg.syms && cfg.syms[s].kind == Hex ==>
              AtomNum(cfg, u, Ref(Sym(s))) == cfg.parse(SymStr(cfg, u, s).val, 16)
  {
    hide WellFormed, SymTriWith, SymStrWith, ModeWith;
  }

  // Visibility and mode

  /** `t` is the highest value among `es`, n if there is none. */
  ghost predicate Highest(cfg: Config, u: User, es: seq<Expr>, t: Tri)
    requires WellFormed(cfg)
  {
    (t == 0 || exists e :: e in es && Eval(cfg, u, e) == t) && forall e :: e in es ==> Eval(cfg, u, e) <= t
  }

  lemma {:induction false} MaxEvalIsHighest(cfg: Config, u: User, es: seq<Expr>, bound: nat)
    requires WellFormed(cfg) && Below(cfg, es, bound)
    ensures Highest(cfg, u, es, MaxEval(cfg, u, es, bound))
  {
    hide WellFormed, Eval;
    if es != [] {
      var front, last := es[..|es| - 1], es[|es| - 1];
      MaxEvalIsHighest(cfg, u, front, bound);
      assert es == front + [last];
      var t := MaxEval(cfg, u, es, bound);
      if Eval(cfg, u, last) != t && t != 0 {
        var e :| e in front && Eval(cfg, u, e) == t;
        assert e in es;
      }
    }
  }

  lemma HighestOnce(cfg: Config, u: User, es: seq<Expr>, t: Tri, t': Tri)
    requires WellFormed(cfg) && Highest(cfg, u, es, t) && Highest(cfg, u, es, t')
    ensures t == t'
  {}

  /** Members of a tristate choice that are not tristate are hidden unless the choice is in y mode;
      in y mode a tristate member that is only m is hidden. */
  ghost predicate HiddenByChoice(cfg: Config, u: User, s: string, t: Tri)
    requires WellFormed(cfg) && s in cfg.syms
  {
    var d := cfg.syms[s];
    d.choice.Some? && d.choice.value in cfg.choices &&
    if d.kind == Tristate then t == 1 && Mode(cfg, u, d.choice.value) == 2
    else cfg.choices[d.choice.value].kind == Tristate && Mode(cfg, u, d.choice.value) != 2
  }

  /** A symbol is as visible as its most visible prompt, m counting as y unless the symbol is tristate
      and modules are on. */
  lemma VisMeans(cfg: Config, u: User, s: string, t: Tri)
    requires WellFormed(cfg) && s in cfg.syms && Highest(cfg, u, cfg.syms[s].prompts, t)
    ensures SymVis(cfg, u, s) == 0 <==> t == 0 || HiddenByChoice(cfg, u, s, t)
    ensures SymVis(cfg, u, s) == 1 <==>
            t == 1 && !HiddenByChoice(cfg, u, s, t) && cfg.syms[s].kind == Tristate && Modules(cfg, u) != 0
  {
    hide WellFormed, Mode, Modules, Highest, MaxEval;
    SymFacts(cfg, s);
    var bound := 8 * cfg.rank(Sym(s)) + 3;
    MaxEvalIsHighest(cfg, u, cfg.syms[s].prompts, bound);
    HighestOnce(cfg, u, cfg.syms[s].prompts, t, MaxEval(cfg, u, cfg.syms[s].prompts, bound));
  }

  /** The same for choices. */
  lemma ChoiceVisMeans(cfg: Config, u: User, c: nat, t: Tri)
    requires WellFormed(cfg) && c in cfg.choices && Highest(cfg, u, cfg.choices[c].prompts, t)
    ensures ChoiceVis(cfg, u, c) == 0 <==> t == 0
    ensures ChoiceVis(cfg, u, c) == 1 <==> t == 1 && cfg.choices[c].kind == Tristate && Modules(cfg, u) != 0
  {
    hide WellFormed, Modules, Highest, MaxEval;
    ChoiceFacts(cfg, c);
    var bound := 8 * cfg.rank(Cho(c));
    MaxEvalIsHighest(cfg, u, cfg.choices[c].prompts, bound);
    HighestOnce(cfg, u, cfg.choices[c].prompts, t, MaxEval(cfg, u, cfg.choices[c].prompts, bound));
  }

  /** A choice is in n mode if it is invisible, or optional and not asked for; in m mode if it can be
      and y is not both asked for and visible; in y mode otherwise. */
  lemma ModeMeans(cfg: Config, u: User, c: nat)
    requires WellFormed(cfg) && c in cfg.choices
    ensures var asked := c in u.mode && u.mode[c] != 0;
            && (Mode(cfg, u, c) == 0 <==> ChoiceVis(cfg, u, c) == 0 || (cfg.choices[c].optional && !asked))
            && (Mode(cfg, u, c) == 1 <==>
                && Mode(cfg, u, c) != 0 && cfg.choices[c].kind == Tristate && Modules(cfg, u) != 0
                && !(asked && u.mode[c] == 2 && ChoiceVis(cfg, u, c) == 2))
  {
    ChoiceFacts(cfg, c);
    hide WellFormed, Modules, ChoiceVis;
  }

  // Defaults

  /** `k` is the first default whose condition is not n. */
  ghost predicate Applies(cfg: Config, u: User, ds: seq<Default>, k: nat)
    requires WellFormed(cfg)
  {
    k < |ds| && Eval(cfg, u, ds[k].cond) != 0 && forall j :: 0 <= j < k ==> Eval(cfg, u, ds[j].cond) == 0
  }

  lemma {:induction false} PickIsFirst(cfg: Config, u: User, ds: seq<Default>, bound: nat)
    requires WellFormed(cfg) && forall d :: d in ds ==> Level(cfg, d.cond) <= bound
    ensures var p := Pick(cfg, u, ds, bound);
            if p.Some? then
              exists k: nat :: Applies(cfg, u, ds, k) && p.value == (ds[k].value, Eval(cfg, u, ds[k].cond))
            else forall k: nat :: !Applies(cfg, u, ds, k)
  {
    hide WellFormed, Eval, Level;
    if ds != [] {
      assert ds[0] in ds;
      if Eval(cfg, u, ds[0].cond) != 0 {
        assert Applies(cfg, u, ds, 0);
      } else {
        var rest := ds[1..];
        PickIsFirst(cfg, u, rest, bound);
        if Pick(cfg, u, rest, bound).Some? {
          var p := Pick(cfg, u, rest, bound).value;
          var k: nat :| Applies(cfg, u, rest, k) && p == (rest[k].value, Eval(cfg, u, rest[k].cond));
          assert forall j :: 0 <= j < |rest| ==> rest[j] == ds[j + 1];
          assert Applies(cfg, u, ds, k + 1);
        } else {
          forall k: nat ensures !Applies(cfg, u, ds, k) {
            assert forall j :: 0 <= j < |rest| ==> rest[j] == ds[j + 1];
            if 0 < k < |ds| {
              assert !Applies(cfg, u, rest, k - 1);
              assert forall j :: 0 <= j < k - 1 && rest[j] == ds[j + 1] ==> rest[j] in rest;
            }
          }
        }
      }
    }
  }

  lemma AppliesOnce(cfg: Config, u: User, ds: seq<Default>, j: nat, k: nat)
    requires WellFormed(cfg) && Applies(cfg, u, ds, j) && Applies(cfg, u, ds, k)
    ensures j == k
  {}

  // Values

  /** The user's value counts. */
  predicate Assigned(cfg: Config, u: User, s: string)
    requires WellFormed(cfg)
  {
    SymVis(cfg, u, s) != 0 && s in u.val && u.val[s].UserTri?
  }

  /** Some reason for `s` to be at least `t`: it is selected, or assigned and visible, or, unless assigned,
      the first default that applies or an implication with direct dependencies that are not n. */
  ghost predicate Reason(cfg: Config, u: User, s: string, t: Tri)
    requires WellFormed(cfg) && s in cfg.syms
  {
    var d := cfg.syms[s];
    || t <= Eval(cfg, u, d.revDep)
    || (Assigned(cfg, u, s) && t <= u.val[s].t && t <= SymVis(cfg, u, s))
    || (!Assigned(cfg, u, s) && UnassignedReason(cfg, u, d, t))
  }

  ghost predicate UnassignedReason(cfg: Config, u: User, d: SymDef, t: Tri)
    requires WellFormed(cfg)
  {
    DefaultReason(cfg, u, d.defaults, t) || (t <= Eval(cfg, u, d.weakRevDep) && Eval(cfg, u, d.directDep) != 0)
  }

  ghost predicate DefaultReason(cfg: Config, u: User, ds: seq<Default>, t: Tri)
    requires WellFormed(cfg)
  {
    exists k: nat :: Applies(cfg, u, ds, k) && t <= Eval(cfg, u, ds[k].value) && t <= Eval(cfg, u, ds[k].cond)
  }

  lemma PickTriMeans(cfg: Config, u: User, s: string, t: Tri)
    requires WellFormed(cfg) && s in cfg.syms && t != 0
    ensures var p := PickTri(cfg, u, s);
            (p.Some? && t <= p.value.0 && t <= p.value.1) <==> DefaultReason(cfg, u, cfg.syms[s].defaults, t)
  {
    hide WellFormed, Eval, Level, Pick, DefaultReason;
    ExprsListed(cfg, s);
    var ds, bound := cfg.syms[s].defaults, 8 * cfg.rank(Sym(s)) + 3;
    PickIsFirst(cfg, u, ds, bound);
    var p := Pick(cfg, u, ds, bound);
    if p.Some? {
      var j: nat :| Applies(cfg, u, ds, j) && p.value == (ds[j].value, Eval(cfg, u, ds[j].cond));
      DefaultReasonAt(cfg, u, ds, j, t);
    } else {
      NoDefaultReason(cfg, u, ds, t);
    }
  }

  lemma DefaultReasonAt(cfg: Config, u: User, ds: seq<Default>, j: nat, t: Tri)
    requires WellFormed(cfg) && Applies(cfg, u, ds, j)
    ensures DefaultReason(cfg, u, ds, t) <==> t <= Eval(cfg, u, ds[j].value) && t <= Eval(cfg, u, ds[j].cond)
  {
    hide WellFormed, Eval;
    if k: nat :| Applies(cfg, u, ds, k) && t <= Eval(cfg, u, ds[k].value) && t <= Eval(cfg, u, ds[k].cond) {
      AppliesOnce(cfg, u, ds, j, k);
    }
  }

  lemma NoDefaultReason(cfg: Config, u: User, ds: seq<Default>, t: Tri)
    requires WellFormed(cfg) && forall k: nat :: !Applies(cfg, u, ds, k)
    ensures !DefaultReason(cfg, u, ds, t)
  {
    hide WellFormed, Eval;
  }

  /** A symbol outside choices is n without a reason, and y if there is a reason for y, or one for m
      while m is not possible or y is implied. It gets an entry if it is visible or there is a reason
      other than an assignment. */
  lemma LogicalMeans(cfg: Config, u: User, s: string)
    requires WellFormed(cfg) && s in cfg.syms && cfg.syms[s].kind.Logical() && cfg.syms[s].choice.None?
    ensures var d := cfg.syms[s]; var v := SymTri(cfg, u, s);
            var noM := d.kind == Bool || Modules(cfg, u) == 0 || Eval(cfg, u, d.weakRevDep) == 2;
            && (v.val == 0 <==> !Reason(cfg, u, s, 1))
            && (v.val == 2 <==> Reason(cfg, u, s, 2) || (Reason(cfg, u, s, 1) && noM))
            && (v.write <==> || SymVis(cfg, u, s) != 0 || Eval(cfg, u, d.revDep) != 0
                             || (!Assigned(cfg, u, s) && UnassignedReason(cfg, u, d, 1)))
  {
    hide WellFormed, Eval, SymVis, Modules, PickTri, DefaultReason;
    PickTriMeans(cfg, u, s, 1);
    PickTriMeans(cfg, u, s, 2);
    assert ActsAsBool(cfg, u, s) <==> cfg.syms[s].kind == Bool || Modules(cfg, u) == 0;
    assert SymTri(cfg, u, s) == SymTriWith(cfg, u, s, u.TriOf(s));
  }

  /** Logical values are spelled n, m and y; symbols of other types are n where a logical value is asked
      for. Undefined symbols stand for their names and get no entry. */
  lemma SpelledOut(cfg: Config, u: User, s: string)
    requires WellFormed(cfg)
    ensures var v := SymTri(cfg, u, s);
            if s in cfg.syms && cfg.syms[s].kind.Logical() then
              SymStr(cfg, u, s) == Text(if v.val == 0 then "n" else if v.val == 1 then "m" else "y", v.write)
            else v.val == 0
    ensures s !in cfg.syms || cfg.syms[s].kind == Unknown ==> SymStr(cfg, u, s) == Text(s, false)
  {
    hide WellFormed, SymVis;
    assert SymTri(cfg, u, s) == SymTriWith(cfg, u, s, u.TriOf(s));
    assert SymStr(cfg, u, s) == SymStrWith(cfg, u, s, u.TextOf(s));
  }

  /** The text of the first default that applies, if there is one. */
  ghost predicate DefaultText(cfg: Config, u: User, s: string, t: Option<string>)
    requires WellFormed(cfg) && s in cfg.syms
  {
    var ds := cfg.syms[s].defaults;
    if t.Some? then
      exists k: nat :: Applies(cfg, u, ds, k) && ds[k].value.Leaf? && t.value == AtomStr(cfg, u, ds[k].value.a)
    else forall k: nat :: !Applies(cfg, u, ds, k)
  }

  lemma PickStrMeans(cfg: Config, u: User, s: string)
    requires WellFormed(cfg) && s in cfg.syms && !cfg.syms[s].kind.Logical()
    ensures DefaultText(cfg, u, s, PickStr(cfg, u, s))
  {
    hide WellFormed, Eval, Level, Pick, AtomStr;
    ExprsListed(cfg, s);
    SymFacts(cfg, s);
    var ds, bound := cfg.syms[s].defaults, 8 * cfg.rank(Sym(s)) + 3;
    PickIsFirst(cfg, u, ds, bound);
    var p := Pick(cfg, u, ds, bound);
    if p.Some? {
      var j: nat :| Applies(cfg, u, ds, j) && p.value == (ds[j].value, Eval(cfg, u, ds[j].cond));
      assert PickStr(cfg, u, s) == Some(AtomStr(cfg, u, p.value.0.a));
      assert ds[j] in ds;
    }
  }

  lemma DefaultTextOnce(cfg: Config, u: User, s: string, t: Option<string>, t': Option<string>)
    requires WellFormed(cfg) && s in cfg.syms && DefaultText(cfg, u, s, t) && DefaultText(cfg, u, s, t')
    ensures t == t'
  {
    hide WellFormed, Eval, AtomStr;
    var ds := cfg.syms[s].defaults;
    if t.Some? && t'.Some? {
      var j: nat :| Applies(cfg, u, ds, j) && ds[j].value.Leaf? && t.value == AtomStr(cfg, u, ds[j].value.a);
      var k: nat :| Applies(cfg, u, ds, k) && ds[k].value.Leaf? && t'.value == AtomStr(cfg, u, ds[k].value.a);
      AppliesOnce(cfg, u, ds, j, k);
    }
  }

  /** A string or key is what the user typed if it is visible, else the first default that applies, else
      empty. It gets an entry if it is visible or has a default. */
  lemma TextMeans(cfg: Config, u: User, s: string, default_: Option<string>)
    requires WellFormed(cfg) && s in cfg.syms && (cfg.syms[s].kind == Str || cfg.syms[s].kind == Key)
    requires DefaultText(cfg, u, s, default_)
    ensures var v := SymStr(cfg, u, s);
            var typed := SymVis(cfg, u, s) != 0 && s in u.val && u.val[s].UserText?;
            && v.val == (if typed then u.val[s].s else if default_.Some? then default_.value else "")
            && (v.write <==> !cfg.syms[s].hidden && (SymVis(cfg, u, s) != 0 || default_.Some?))
  {
    hide WellFormed, SymVis, DefaultText, PickStr;
    PickStrMeans(cfg, u, s);
    DefaultTextOnce(cfg, u, s, default_, PickStr(cfg, u, s));
    assert SymStr(cfg, u, s) == SymStrWith(cfg, u, s, u.TextOf(s));
  }

  // Numbers

  /** What is printed is read back as the same number. */
  ghost predicate ShowParses(cfg: Config) { forall k, b :: cfg.parse(cfg.show(k, b), b) == Some(k) }

  /** A text read as a number, 0 if it is none. */
  function Number(cfg: Config, text: string, base: nat): int {
    if cfg.parse(text, base).Some? then cfg.parse(text, base).value else 0
  }

  /** `low` to `high` is the first range of `s` whose condition is not n. */
  ghost predicate InForce(cfg: Config, u: User, s: string, low: int, high: int)
    requires WellFormed(cfg) && s in cfg.syms
  {
    exists k: nat :: RangeApplies(cfg, u, cfg.syms[s].ranges, k, cfg.syms[s].kind.Base(), low, high)
  }

  ghost predicate RangeApplies(cfg: Config, u: User, rs: seq<Range>, k: nat, base: nat, low: int, high: int)
    requires WellFormed(cfg)
  {
    && k < |rs| && Eval(cfg, u, rs[k].cond) != 0 && (forall j :: 0 <= j < k ==> Eval(cfg, u, rs[j].cond) == 0)
    && low == Number(cfg, AtomStr(cfg, u, rs[k].low), base) && high == Number(cfg, AtomStr(cfg, u, rs[k].high), base)
  }

  lemma {:induction false} RangeIsFirst(cfg: Config, u: User, rs: seq<Range>, base: nat, bound: nat, k: nat, low: int,
                                        high: int)
    requires WellFormed(cfg)
    requires forall r :: r in rs ==>
               Level(cfg, r.cond) <= bound && AtomLevel(cfg, r.low) <= bound && AtomLevel(cfg, r.high) <= bound
    requires RangeApplies(cfg, u, rs, k, base, low, high)
    ensures ActiveRange(cfg, u, rs, base, bound) == Some((low, high))
  {
    hide WellFormed, Eval, AtomStr, Level, AtomLevel;
    assert rs[0] in rs;
    if k > 0 {
      var rest := rs[1..];
      assert forall j :: 0 <= j < |rest| ==> rest[j] == rs[j + 1];
      assert RangeApplies(cfg, u, rest, k - 1, base, low, high);
      RangeIsFirst(cfg, u, rest, base, bound, k - 1, low, high);
    }
  }

  lemma {:induction false} NoRange(cfg: Config, u: User, rs: seq<Range>, base: nat, bound: nat)
    requires WellFormed(cfg)
    requires forall r :: r in rs ==>
               Level(cfg, r.cond) <= bound && AtomLevel(cfg, r.low) <= bound && AtomLevel(cfg, r.high) <= bound
    requires forall r :: r in rs ==> Eval(cfg, u, r.cond) == 0
    ensures ActiveRange(cfg, u, rs, base, bound) == None
  {
    hide WellFormed, Eval, AtomStr, Level, AtomLevel;
    if rs != [] {
      assert rs[0] in rs;
      NoRange(cfg, u, rs[1..], base, bound);
    }
  }

  function Distance(j: int, k: int): int { if j <= k then k - j else j - k }

  /** The user's value counts: visible, not empty, and inside the range. */
  predicate CountsAsNumber(cfg: Config, u: User, s: string, low: int, high: int)
    requires WellFormed(cfg) && s in cfg.syms
  {
    && SymVis(cfg, u, s) != 0 && s in u.val && u.val[s].UserText? && u.val[s].s != ""
    && low <= Number(cfg, u.val[s].s, cfg.syms[s].kind.Base()) <= high
  }

  /** A number with a range in force is inside it: what the user typed if that counts, else the number of
      the range that is nearest to the default, spelled as the default is if that is inside. */
  lemma NumberInRange(cfg: Config, u: User, s: string, low: int, high: int, default_: Option<string>)
    requires WellFormed(cfg) && ShowParses(cfg) && s in cfg.syms && cfg.syms[s].kind.Numeric()
    requires InForce(cfg, u, s, low, high) && low <= high && DefaultText(cfg, u, s, default_)
    ensures var v, base := SymStr(cfg, u, s), cfg.syms[s].kind.Base();
            var k, text := Number(cfg, v.val, base), if default_.Some? then default_.value else "";
            && low <= k <= high
            && (if CountsAsNumber(cfg, u, s, low, high) then v.val == u.val[s].s
                else
                  && (low <= Number(cfg, text, base) <= high ==> v.val == text)
                  && forall j :: low <= j <= high ==>
                                   Distance(k, Number(cfg, text, base)) <= Distance(j, Number(cfg, text, base)))
            && (v.write <==> !cfg.syms[s].hidden && (SymVis(cfg, u, s) != 0 || default_.Some?))
  {
    hide WellFormed, SymVis, DefaultText, PickStr, SymRange, RangeApplies;
    PickStrMeans(cfg, u, s);
    DefaultTextOnce(cfg, u, s, default_, PickStr(cfg, u, s));
    InForceIs(cfg, u, s, low, high);
    assert SymStr(cfg, u, s) == SymStrWith(cfg, u, s, u.TextOf(s));
    var base := cfg.syms[s].kind.Base();
    assert cfg.parse(cfg.show(low, base), base) == Some(low) && cfg.parse(cfg.show(high, base), base) == Some(high);
  }

  lemma InForceIs(cfg: Config, u: User, s: string, low: int, high: int)
    requires WellFormed(cfg) && s in cfg.syms && InForce(cfg, u, s, low, high)
    ensures SymRange(cfg, u, s) == Some((low, high))
  {
    hide WellFormed, RangeApplies, ActiveRange, Level, AtomLevel;
    ExprsListed(cfg, s);
    var rs, base, bound := cfg.syms[s].ranges, cfg.syms[s].kind.Base(), 8 * cfg.rank(Sym(s)) + 3;
    var k: nat :| RangeApplies(cfg, u, rs, k, base, low, high);
    RangeIsFirst(cfg, u, rs, base, bound, k, low, high);
  }

  /** Without a range, a number is what the user typed if visible and not empty, else the default. */
  lemma NumberWithoutRange(cfg: Config, u: User, s: string, default_: Option<string>)
    requires WellFormed(cfg) && s in cfg.syms && cfg.syms[s].kind.Numeric() && DefaultText(cfg, u, s, default_)
    requires forall r :: r in cfg.syms[s].ranges ==> Eval(cfg, u, r.cond) == 0
    ensures var typed := SymVis(cfg, u, s) != 0 && s in u.val && u.val[s].UserText? && u.val[s].s != "";
            SymStr(cfg, u, s).val == if typed then u.val[s].s else if default_.Some? then default_.value else ""
  {
    hide WellFormed, SymVis, DefaultText, PickStr, Eval, ActiveRange, Level, AtomLevel, AtomStr;
    ExprsListed(cfg, s);
    PickStrMeans(cfg, u, s);
    DefaultTextOnce(cfg, u, s, default_, PickStr(cfg, u, s));
    NoRange(cfg, u, cfg.syms[s].ranges, cfg.syms[s].kind.Base(), 8 * cfg.rank(Sym(s)) + 3);
    assert SymStr(cfg, u, s) == SymStrWith(cfg, u, s, u.TextOf(s));
  }

  // Selections

  /** `k` is the first default with a condition that is not n and a visible symbol. */
  ghost predicate ChoiceApplies(cfg: Config, u: User, ds: seq<ChoiceDefault>, k: nat)
    requires WellFormed(cfg)
  {
    k < |ds| && Eligible(cfg, u, ds[k]) && forall j :: 0 <= j < k ==> !Eligible(cfg, u, ds[j])
  }

  predicate Eligible(cfg: Config, u: User, d: ChoiceDefault)
    requires WellFormed(cfg)
  {
    Eval(cfg, u, d.cond) != 0 && SymVis(cfg, u, d.sym) != 0
  }

  /** `k` is the first visible one. */
  ghost predicate FirstAt(cfg: Config, u: User, syms: seq<string>, k: nat)
    requires WellFormed(cfg)
  {
    k < |syms| && SymVis(cfg, u, syms[k]) != 0 && forall j :: 0 <= j < k ==> SymVis(cfg, u, syms[j]) == 0
  }

  lemma {:induction false} FirstVisibleIs(cfg: Config, u: User, c: nat, syms: seq<string>, k: nat)
    requires WellFormed(cfg) && c in cfg.choices && forall m :: m in syms ==> m in cfg.choices[c].syms
    requires FirstAt(cfg, u, syms, k)
    ensures FirstVisible(cfg, u, c, syms) == Some(syms[k])
    decreases |syms|
  {
    hide WellFormed, SymVis;
    if k > 0 {
      assert forall j :: 0 <= j < |syms| - 1 ==> syms[1..][j] == syms[j + 1];
      FirstVisibleIs(cfg, u, c, syms[1..], k - 1);
    }
  }

  lemma {:induction false} DefaultFromIs(cfg: Config, u: User, c: nat, ds: seq<ChoiceDefault>, k: nat)
    requires WellFormed(cfg) && c in cfg.choices && forall d :: d in ds ==> d in cfg.choices[c].defaults
    requires ChoiceApplies(cfg, u, ds, k)
    ensures DefaultFrom(cfg, u, c, ds) == Some(ds[k].sym)
    decreases |ds|
  {
    hide WellFormed, SymVis, Eval, ChoiceExprs, FirstVisible;
    assert ds[0] in ds;
    if k > 0 {
      assert forall j :: 0 <= j < |ds| - 1 ==> ds[1..][j] == ds[j + 1];
      DefaultFromIs(cfg, u, c, ds[1..], k - 1);
    }
  }

  lemma {:induction false} NoDefaultFrom(cfg: Config, u: User, c: nat, ds: seq<ChoiceDefault>)
    requires WellFormed(cfg) && c in cfg.choices && forall d :: d in ds ==> d in cfg.choices[c].defaults
    requires forall d :: d in ds ==> !Eligible(cfg, u, d)
    ensures DefaultFrom(cfg, u, c, ds) == FirstVisible(cfg, u, c, cfg.choices[c].syms)
    decreases |ds|
  {
    hide WellFormed, SymVis, Eval, ChoiceExprs, FirstVisible;
    if ds != [] {
      assert ds[0] in ds;
      NoDefaultFrom(cfg, u, c, ds[1..]);
    }
  }

  /** Outside y mode nothing is selected. In y mode it is the user's selection if that is visible, else
      the first default that applies and is visible, else the first visible symbol. */
  lemma SelectionMeans(cfg: Config, u: User, c: nat)
    requires WellFormed(cfg) && c in cfg.choices
    ensures Mode(cfg, u, c) != 2 ==> Selection(cfg, u, c) == None
    ensures Mode(cfg, u, c) == 2 ==>
              var d := cfg.choices[c];
              var chosen := c in u.sel && u.sel[c] in d.syms && SymVis(cfg, u, u.sel[c]) != 0;
              && (chosen ==> Selection(cfg, u, c) == Some(u.sel[c]))
              && (forall k: nat :: !chosen && ChoiceApplies(cfg, u, d.defaults, k) ==>
                                     Selection(cfg, u, c) == Some(d.defaults[k].sym))
              && (!chosen && (forall x :: x in d.defaults ==> !Eligible(cfg, u, x)) ==>
                    forall k: nat :: FirstAt(cfg, u, d.syms, k) ==> Selection(cfg, u, c) == Some(d.syms[k]))
  {
    hide WellFormed, SymVis, Mode, DefaultFrom, FirstVisible, Eval;
    var d := cfg.choices[c];
    assert Selection(cfg, u, c) == SelectionWith(cfg, u, c, u.SelectionOf(c));
    forall k: nat | ChoiceApplies(cfg, u, d.defaults, k)
      ensures DefaultFrom(cfg, u, c, d.defaults) == Some(d.defaults[k].sym)
    {
      DefaultFromIs(cfg, u, c, d.defaults, k);
    }
    if forall x :: x in d.defaults ==> !Eligible(cfg, u, x) { NoDefaultFrom(cfg, u, c, d.defaults); }
    forall k: nat | FirstAt(cfg, u, d.syms, k) ensures FirstVisible(cfg, u, c, d.syms) == Some(d.syms[k]) {
      FirstVisibleIs(cfg, u, c, d.syms, k);
    }
  }
}
