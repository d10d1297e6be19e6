/** The expression printer and the recursive-descent parser, on tokens. */
module KconfigExprText {
  import opened Basics
  import opened KconfigModel
  import opened KconfigValues
  import opened KconfigMeaning

  datatype Token = TSym(a: Atom) | TAnd | TOr | TNot | TOpen | TClose | TRel(op: RelOp)

  // Printing

  /** expr_str(). Redundant parentheses around && inside || are kept. */
  function Print(e: Expr): seq<Token>
    decreases e, 0
  {
    match e
    case Leaf(a) => [TSym(a)]
    case And(l, r) => AndOperand(l) + [TAnd] + AndOperand(r)
    case Or(l, r) => OrOperand(l) + [TOr] + OrOperand(r)
    case Not(f) => if f.Leaf? then [TNot, TSym(f.a)] else [TNot, TOpen] + Print(f) + [TClose]
    case Rel(op, x, y) => [TSym(x), TRel(op), TSym(y)]
  }

  function AndOperand(e: Expr): seq<Token>
    decreases e, 1
  {
    if e.Or? then [TOpen] + Print(e) + [TClose] else Print(e)
  }

  function OrOperand(e: Expr): seq<Token>
    decreases e, 1
  {
    if e.And? then [TOpen] + Print(e) + [TClose] else Print(e)
  }

  // Parsing

  const M := Leaf(Nmy(1))

  /** What is parsed, and the tokens left; `None` is a syntax error. */
  function ParseExpr(ts: seq<Token>, transformM: bool): (r: Option<(Expr, seq<Token>)>)
    ensures r.Some? ==> |r.value.1| < |ts|
    decreases |ts|, 2
  {
    var (l, rest) :- ParseAnd(ts, transformM);
    if rest != [] && rest[0] == TOr then
      var (r, rest') :- ParseExpr(rest[1..], transformM); Some((Or(l, r), rest'))
    else Some((l, rest))
  }

  function ParseAnd(ts: seq<Token>, transformM: bool): (r: Option<(Expr, seq<Token>)>)
    ensures r.Some? ==> |r.value.1| < |ts|
    decreases |ts|, 1
  {
    var (l, rest) :- ParseFactor(ts, transformM);
    if rest != [] && rest[0] == TAnd then
      var (r, rest') :- ParseAnd(rest[1..], transformM); Some((And(l, r), rest'))
    else Some((l, rest))
  }

  /** A plain m may be rewritten to m && MODULES. */
  function ParseFactor(ts: seq<Token>, transformM: bool): (r: Option<(Expr, seq<Token>)>)
    ensures r.Some? ==> |r.value.1| < |ts|
    decreases |ts|, 0
  {
    if ts == [] then None else
    match ts[0]
    case TSym(x) =>
      if |ts| > 1 && ts[1].TRel? then
        if |ts| > 2 && ts[2].TSym? then Some((Rel(ts[1].op, x, ts[2].a), ts[3..])) else None
      else if transformM && x == Nmy(1) then Some((And(M, Leaf(Ref(Sym(MODULES)))), ts[1..]))
      else Some((Leaf(x), ts[1..]))
    case TNot =>
      var (f, rest) :- ParseFactor(ts[1..], transformM); Some((Not(f), rest))
    case TOpen =>
      var (e, rest) :- ParseExpr(ts[1..], transformM);
      if rest != [] && rest[0] == TClose then Some((e, rest[1..])) else None
    case _ => None
  }

  // Meaning

  /** The value of an expression, given those of its atoms and relations. */
  function Meaning(e: Expr, atom: Atom -> Tri, rel: (RelOp, Atom, Atom) -> Tri): Tri {
    match e
    case Leaf(a) => atom(a)
    case And(l, r) => Min(Meaning(l, atom, rel), Meaning(r, atom, rel))
    case Or(l, r) => Max(Meaning(l, atom, rel), Meaning(r, atom, rel))
    case Not(f) => 2 - Meaning(f, atom, rel)
    case Rel(op, x, y) => rel(op, x, y)
  }

  ghost predicate Same(e: Expr, e': Expr) {
    forall atom, rel :: Meaning(e, atom, rel) == Meaning(e', atom, rel)
  }

  lemma LikeRight(a: Expr, b: Expr, b': Expr, c: Expr)
    requires Same(b, b')
    ensures Same(And(a, b'), c) ==> Same(And(a, b), c)
    ensures Same(Or(a, b'), c) ==> Same(Or(a, b), c)
  {}

  lemma AndLike(a: Expr, a': Expr, b: Expr, c: Expr, d: Expr)
    ensures Same(a, a') ==> Same(And(a, b), And(a', b))
    ensures Same(And(b, c), d) && Same(And(a, d), a') ==> Same(And(And(a, b), c), a')
  {
    if Same(And(b, c), d) && Same(And(a, d), a') {
      forall atom, rel ensures Meaning(And(And(a, b), c), atom, rel) == Meaning(a', atom, rel) {
        assert Meaning(And(b, c), atom, rel) == Meaning(d, atom, rel);
        assert Meaning(And(a, d), atom, rel) == Meaning(a', atom, rel);
      }
    }
  }

  lemma OrLike(a: Expr, a': Expr, b: Expr, c: Expr, d: Expr)
    ensures Same(a, a') ==> Same(Or(a, b), Or(a', b))
    ensures Same(Or(b, c), d) && Same(Or(a, d), a') ==> Same(Or(Or(a, b), c), a')
  {
    if Same(Or(b, c), d) && Same(Or(a, d), a') {
      forall atom, rel ensures Meaning(Or(Or(a, b), c), atom, rel) == Meaning(a', atom, rel) {
        assert Meaning(Or(b, c), atom, rel) == Meaning(d, atom, rel);
        assert Meaning(Or(a, d), atom, rel) == Meaning(a', atom, rel);
      }
    }
  }

  // Round trip

  predicate StartsWith(ts: seq<Token>, t: Token) { ts != [] && ts[0] == t }

  /** `ts` goes on with neither a relation nor one of the operators. */
  predicate Ends(ts: seq<Token>) {
    ts == [] || !(ts[0].TRel? || ts[0].TAnd? || ts[0].TOr?)
  }

  /** Everything but && and || prints as a factor, and so does anything in parentheses. */
  lemma {:induction false} FactorReads(e: Expr, ts: seq<Token>) returns (e': Expr)
    requires !e.And? && !e.Or? && !(ts != [] && ts[0].TRel?)
    ensures ParseFactor(Print(e) + ts, false) == Some((e', ts)) && Same(e, e')
    decreases e, 0
  {
    var all := Print(e) + ts;
    match e
    case Leaf(a) =>
      e' := e;
      assert all[1..] == ts;
      assert |all| > 1 ==> all[1] == ts[0];
    case Rel(op, x, y) =>
      e' := e;
      assert all[3..] == ts;
    case Not(f) =>
      var g;
      if f.Leaf? {
        assert all[1..] == Print(f) + ts;
        g := FactorReads(f, ts);
      } else {
        assert all[1..] == [TOpen] + Print(f) + [TClose] + ts;
        g := ParenthesesRead(f, ts);
      }
      e' := Not(g);
  }

  lemma {:induction false} ParenthesesRead(e: Expr, ts: seq<Token>) returns (e': Expr)
    ensures ParseFactor([TOpen] + Print(e) + [TClose] + ts, false) == Some((e', ts)) && Same(e, e')
    decreases e, 4
  {
    e' := ExprReads(e, [TClose] + ts);
    assert ([TOpen] + Print(e) + [TClose] + ts)[1..] == Print(e) + ([TClose] + ts);
    assert ([TClose] + ts)[1..] == ts;
  }

  /** An operand of &&, at the end of a conjunction. */
  lemma {:induction false} LastConjunctReads(e: Expr, ts: seq<Token>) returns (e': Expr)
    requires !(ts != [] && (ts[0].TRel? || ts[0].TAnd?))
    ensures ParseAnd(AndOperand(e) + ts, false) == Some((e', ts)) && Same(e, e')
    decreases e, 5
  {
    hide Same, ParseFactor;
    if e.And? {
      var r' := LastConjunctReads(e.r, ts);
      e' := ConjunctReads(e.l, AndOperand(e.r) + ts, r', ts);
      LikeRight(e.l, e.r, r', e');
      assert AndOperand(e) + ts == AndOperand(e.l) + [TAnd] + (AndOperand(e.r) + ts);
    } else if e.Or? {
      e' := ParenthesesRead(e, ts);
    } else {
      e' := FactorReads(e, ts);
    }
  }

  /** An operand of && that others follow: && may be re-associated. */
  lemma {:induction false} ConjunctReads(e: Expr, more: seq<Token>, x: Expr, ts: seq<Token>) returns (e': Expr)
    requires ParseAnd(more, false) == Some((x, ts))
    ensures ParseAnd(AndOperand(e) + [TAnd] + more, false) == Some((e', ts))
    ensures Same(And(e, x), e')
    decreases e, 5
  {
    hide Same, ParseFactor;
    var rest := [TAnd] + more;
    assert rest[1..] == more;
    if e.And? {
      var y := ConjunctReads(e.r, more, x, ts);
      e' := ConjunctReads(e.l, AndOperand(e.r) + [TAnd] + more, y, ts);
      AndLike(e.l, e', e.r, x, y);
      assert AndOperand(e) + [TAnd] + more == AndOperand(e.l) + [TAnd] + (AndOperand(e.r) + [TAnd] + more);
    } else {
      var f;
      if e.Or? { f := ParenthesesRead(e, rest); } else { f := FactorReads(e, rest); }
      assert AndOperand(e) + [TAnd] + more == AndOperand(e) + rest;
      e' := And(f, x);
      AndLike(e, f, x, x, x);
    }
  }

  /** An operand of || that is no disjunction itself reads as a conjunction. */
  lemma {:induction false} DisjunctOperandReads(e: Expr, ts: seq<Token>) returns (e': Expr)
    requires !e.Or? && !(ts != [] && (ts[0].TRel? || ts[0].TAnd?))
    ensures ParseAnd(OrOperand(e) + ts, false) == Some((e', ts)) && Same(e, e')
    decreases e, 6
  {
    if e.And? {
      e' := ParenthesesRead(e, ts);
    } else {
      e' := FactorReads(e, ts);
    }
  }

  lemma {:induction false} LastDisjunctReads(e: Expr, ts: seq<Token>) returns (e': Expr)
    requires Ends(ts)
    ensures ParseExpr(OrOperand(e) + ts, false) == Some((e', ts)) && Same(e, e')
    decreases e, 7
  {
    hide Same, ParseAnd;
    if e.Or? {
      var r' := LastDisjunctReads(e.r, ts);
      e' := DisjunctReads(e.l, OrOperand(e.r) + ts, r', ts);
      LikeRight(e.l, e.r, r', e');
      assert OrOperand(e) + ts == OrOperand(e.l) + [TOr] + (OrOperand(e.r) + ts);
    } else {
      e' := DisjunctOperandReads(e, ts);
    }
  }

  lemma {:induction false} DisjunctReads(e: Expr, more: seq<Token>, x: Expr, ts: seq<Token>) returns (e': Expr)
    requires ParseExpr(more, false) == Some((x, ts))
    ensures ParseExpr(OrOperand(e) + [TOr] + more, false) == Some((e', ts))
    ensures Same(Or(e, x), e')
    decreases e, 7
  {
    hide Same, ParseAnd;
    var rest := [TOr] + more;
    assert rest[1..] == more;
    if e.Or? {
      var y := DisjunctReads(e.r, more, x, ts);
      e' := DisjunctReads(e.l, OrOperand(e.r) + [TOr] + more, y, ts);
      OrLike(e.l, e', e.r, x, y);
      assert OrOperand(e) + [TOr] + more == OrOperand(e.l) + [TOr] + (OrOperand(e.r) + [TOr] + more);
    } else {
      var f := DisjunctOperandReads(e, rest);
      assert OrOperand(e) + [TOr] + more == OrOperand(e) + rest;
      e' := Or(f, x);
      OrLike(e, f, x, x, x);
    }
  }

  lemma {:induction false} ExprReads(e: Expr, ts: seq<Token>) returns (e': Expr)
    requires Ends(ts)
    ensures ParseExpr(Print(e) + ts, false) == Some((e', ts)) && Same(e, e')
    decreases e, 3
  {
    hide Same, ParseFactor;
    match e
    case Or(l, r) =>
      var r' := LastDisjunctReads(r, ts);
      e' := DisjunctReads(l, OrOperand(r) + ts, r', ts);
      LikeRight(l, r, r', e');
      assert Print(e) + ts == OrOperand(l) + [TOr] + (OrOperand(r) + ts);
    case And(l, r) =>
      var r' := LastConjunctReads(r, ts);
      e' := ConjunctReads(l, AndOperand(r) + ts, r', ts);
      LikeRight(l, r, r', e');
      assert Print(e) + ts == AndOperand(l) + [TAnd] + (AndOperand(r) + ts);
    case _ =>
      e' := FactorReads(e, ts);
  }

  /** Printing and parsing back consumes all tokens and preserves the value under every valuation,
      although && and || may be re-associated. */
  lemma PrintParse(e: Expr)
    ensures var r := ParseExpr(Print(e), false); r.Some? && r.value.1 == [] && Same(e, r.value.0)
  {
    var e' := ExprReads(e, []);
    assert Print(e) + [] == Print(e);
  }

  // The parser as it runs, with a cursor into the tokens

  // How tokens group, and the rewriting of m

  lemma AtomReads(x: Atom, ts: seq<Token>)
    requires !(ts != [] && ts[0].TRel?)
    ensures ParseFactor([TSym(x)] + ts, false) == Some((Leaf(x), ts))
  {
    assert ([TSym(x)] + ts)[1..] == ts;
    assert |ts| > 0 ==> ([TSym(x)] + ts)[1] == ts[0];
  }

  /** An atom, and then what comes after &&. */
  lemma AtomAnd(x: Atom, ts: seq<Token>)
    requires !(ts != [] && ts[0].TRel?)
    ensures !StartsWith(ts, TAnd) ==> ParseAnd([TSym(x)] + ts, false) == Some((Leaf(x), ts))
    ensures StartsWith(ts, TAnd) && ParseAnd(ts[1..], false).Some? ==>
              var (r, rest) := ParseAnd(ts[1..], false).value;
              ParseAnd([TSym(x)] + ts, false) == Some((And(Leaf(x), r), rest))
  {
    hide ParseFactor;
    AtomReads(x, ts);
  }

  lemma ThenOr(ts: seq<Token>)
    requires ParseAnd(ts, false).Some?
    ensures var (l, rest) := ParseAnd(ts, false).value;
            && (!StartsWith(rest, TOr) ==> ParseExpr(ts, false) == Some((l, rest)))
            && (StartsWith(rest, TOr) && ParseExpr(rest[1..], false).Some? ==>
                  var (r, rest') := ParseExpr(rest[1..], false).value; ParseExpr(ts, false) == Some((Or(l, r), rest')))
  {
    hide ParseAnd;
  }

  /** ! binds most, then &&, then ||, and parentheses override that. */
  lemma Grouping(x: Atom, y: Atom, z: Atom)
    ensures var (s, t, u) := (TSym(x), TSym(y), TSym(z));
            && ParseExpr([s, TAnd, t, TOr, u], false) == Some((Or(And(Leaf(x), Leaf(y)), Leaf(z)), []))
            && ParseExpr([s, TOr, t, TAnd, u], false) == Some((Or(Leaf(x), And(Leaf(y), Leaf(z))), []))
            && ParseExpr([TNot, s, TAnd, t], false) == Some((And(Not(Leaf(x)), Leaf(y)), []))
            && ParseExpr([TOpen, s, TOr, t, TClose, TAnd, u], false) == Some((And(Or(Leaf(x), Leaf(y)), Leaf(z)), []))
  {
    AndFirst(x, y, z);
    OrFirst(x, y, z);
    NotFirst(x, y);
    ParenthesesFirst(x, y, z);
  }

  lemma AndFirst(x: Atom, y: Atom, z: Atom)
    ensures ParseExpr([TSym(x), TAnd, TSym(y), TOr, TSym(z)], false) == Some((Or(And(Leaf(x), Leaf(y)), Leaf(z)), []))
  {
    hide ParseExpr, ParseAnd;
    var all := [TSym(x), TAnd, TSym(y), TOr, TSym(z)];
    assert all == [TSym(x)] + [TAnd, TSym(y), TOr, TSym(z)] && [TAnd, TSym(y), TOr, TSym(z)][1..] == all[2..];
    assert all[2..] == [TSym(y)] + [TOr, TSym(z)] && [TOr, TSym(z)][1..] == [TSym(z)] + [];
    AtomAnd(y, [TOr, TSym(z)]);
    AtomAnd(x, [TAnd, TSym(y), TOr, TSym(z)]);
    AtomAnd(z, []);
    ThenOr([TSym(z)] + []);
    ThenOr(all);
  }

  lemma OrFirst(x: Atom, y: Atom, z: Atom)
    ensures ParseExpr([TSym(x), TOr, TSym(y), TAnd, TSym(z)], false) == Some((Or(Leaf(x), And(Leaf(y), Leaf(z))), []))
  {
    hide ParseExpr, ParseAnd;
    var all := [TSym(x), TOr, TSym(y), TAnd, TSym(z)];
    assert all == [TSym(x)] + [TOr, TSym(y), TAnd, TSym(z)] && [TOr, TSym(y), TAnd, TSym(z)][1..] == all[2..];
    assert all[2..] == [TSym(y)] + [TAnd, TSym(z)] && [TAnd, TSym(z)][1..] == [TSym(z)] + [];
    AtomAnd(z, []);
    AtomAnd(y, [TAnd, TSym(z)]);
    AtomAnd(x, [TOr, TSym(y), TAnd, TSym(z)]);
    ThenOr(all[2..]);
    ThenOr(all);
  }

  lemma NotFirst(x: Atom, y: Atom)
    ensures ParseExpr([TNot, TSym(x), TAnd, TSym(y)], false) == Some((And(Not(Leaf(x)), Leaf(y)), []))
  {
    hide ParseExpr;
    var all := [TNot, TSym(x), TAnd, TSym(y)];
    assert all[1..] == [TSym(x)] + [TAnd, TSym(y)] && [TAnd, TSym(y)][1..] == [TSym(y)] + [];
    AtomReads(x, [TAnd, TSym(y)]);
    assert ParseFactor(all, false) == Some((Not(Leaf(x)), [TAnd, TSym(y)]));
    AtomAnd(y, []);
    hide ParseFactor;
    ThenOr(all);
  }

  lemma ParenthesesFirst(x: Atom, y: Atom, z: Atom)
    ensures ParseExpr([TOpen, TSym(x), TOr, TSym(y), TClose, TAnd, TSym(z)], false) ==
            Some((And(Or(Leaf(x), Leaf(y)), Leaf(z)), []))
  {
    hide ParseExpr;
    var all := [TOpen, TSym(x), TOr, TSym(y), TClose, TAnd, TSym(z)];
    var after := [TClose, TAnd, TSym(z)];
    assert all[1..] == [TSym(x)] + ([TOr, TSym(y)] + after) && ([TOr, TSym(y)] + after)[1..] == [TSym(y)] + after;
    InsideReads(x, y, after);
    assert after[1..] == [TAnd, TSym(z)] && [TAnd, TSym(z)][1..] == [TSym(z)] + [];
    assert ParseFactor(all, false) == Some((Or(Leaf(x), Leaf(y)), [TAnd, TSym(z)]));
    AtomAnd(z, []);
    hide ParseFactor;
    ThenOr(all);
  }

  lemma InsideReads(x: Atom, y: Atom, after: seq<Token>)
    requires StartsWith(after, TClose)
    ensures ParseExpr([TSym(x)] + ([TOr, TSym(y)] + after), false) == Some((Or(Leaf(x), Leaf(y)), after))
  {
    hide ParseExpr, ParseAnd;
    assert ([TOr, TSym(y)] + after)[1..] == [TSym(y)] + after;
    AtomAnd(y, after);
    AtomAnd(x, [TOr, TSym(y)] + after);
    ThenOr([TSym(y)] + after);
    ThenOr([TSym(x)] + ([TOr, TSym(y)] + after));
  }

  /** Every m outside relations becomes m && MODULES. */
  function WithModules(e: Expr): Expr {
    match e
    case Leaf(a) => if a == Nmy(1) then And(Leaf(a), Leaf(Ref(Sym(MODULES)))) else e
    case And(l, r) => And(WithModules(l), WithModules(r))
    case Or(l, r) => Or(WithModules(l), WithModules(r))
    case Not(f) => Not(WithModules(f))
    case Rel(_, _, _) => e
  }

  function Rewritten(p: Option<(Expr, seq<Token>)>): Option<(Expr, seq<Token>)> {
    if p.None? then None else Some((WithModules(p.value.0), p.value.1))
  }

  /** Parsing with the rewriting reads the same tokens, to the same expression but for that. */
  lemma {:induction false} ExprRewritten(ts: seq<Token>)
    ensures ParseExpr(ts, true) == Rewritten(ParseExpr(ts, false))
    decreases |ts|, 2
  {
    hide ParseAnd, ParseFactor;
    AndRewritten(ts);
    var p := ParseAnd(ts, false);
    if p.Some? && StartsWith(p.value.1, TOr) { ExprRewritten(p.value.1[1..]); }
  }

  lemma {:induction false} AndRewritten(ts: seq<Token>)
    ensures ParseAnd(ts, true) == Rewritten(ParseAnd(ts, false))
    decreases |ts|, 1
  {
    hide ParseFactor, ParseExpr;
    FactorRewritten(ts);
    var p := ParseFactor(ts, false);
    if p.Some? && StartsWith(p.value.1, TAnd) { AndRewritten(p.value.1[1..]); }
  }

  lemma {:induction false} FactorRewritten(ts: seq<Token>)
    ensures ParseFactor(ts, true) == Rewritten(ParseFactor(ts, false))
    decreases |ts|, 0
  {
    hide ParseExpr, ParseAnd;
    if ts != [] {
      if ts[0] == TNot { FactorRewritten(ts[1..]); }
      if ts[0] == TOpen { ExprRewritten(ts[1..]); }
    }
  }

  /** What the rewriting means: m counts as m only if modules are on. */
  lemma {:induction false} WithModulesMeans(cfg: Config, u: User, e: Expr)
    requires WellFormed(cfg)
    ensures Eval(cfg, u, WithModules(e)) ==
            Meaning(e, a => if a == Nmy(1) then Min(1, Modules(cfg, u)) else AtomTri(cfg, u, a),
                    (op, x, y) => Holds(op, Compare(cfg, u, x, y)))
  {
    hide WellFormed, Compare, Holds, SymTri, AtomTri;
    match e
    case And(l, r) => WithModulesMeans(cfg, u, l); WithModulesMeans(cfg, u, r);
    case Or(l, r) => WithModulesMeans(cfg, u, l); WithModulesMeans(cfg, u, r);
    case Not(f) => WithModulesMeans(cfg, u, f);
    case Leaf(a) =>
      LeafMeans(cfg, u, MODULES, 0, 1, "");
      ModulesIs(cfg, u);
    case Rel(_, _, _) =>
  }

  lemma ModulesIs(cfg: Config, u: User)
    requires WellFormed(cfg)
    ensures Modules(cfg, u) == SymTri(cfg, u, MODULES).val
  {
    hide WellFormed, SymTriWith;
  }

  class Parser {
    const tokens: seq<Token>
    var next: nat

    constructor (ts: seq<Token>)
      ensures tokens == ts && next == 0
    {
      tokens := ts;
      next := 0;
    }

    /** The parse `p` of what was left at `from` came out as `r`. */
    ghost predicate Follows(p: Option<(Expr, seq<Token>)>, r: Option<Expr>)
      reads this
    {
      match p
      case None => r == None
      case Some((e, rest)) => r == Some(e) && next <= |tokens| && tokens[next..] == rest
    }

    /** _check_token(): skips `t` if it is next. */
    method CheckToken(t: Token) returns (found: bool)
      requires next <= |tokens|
      modifies this
      ensures found == StartsWith(tokens[old(next)..], t) && next == old(next) + if found then 1 else 0
      ensures next <= |tokens| && (found ==> tokens[next..] == tokens[old(next)..][1..])
    {
      found := next < |tokens| && tokens[next] == t;
      if found { next := next + 1; }
    }

    method ParseExprAt(transformM: bool) returns (r: Option<Expr>)
      requires next <= |tokens|
      modifies this
      ensures Follows(ParseExpr(tokens[old(next)..], transformM), r)
      ensures r.Some? ==> old(next) < next
      decreases |tokens| - next, 2
    {
      r := ParseAndAt(transformM);
      if r.None? { return; }
      var l := r.value;
      var more := CheckToken(TOr);
      if more {
        r := ParseExprAt(transformM);
        if r.Some? { r := Some(Or(l, r.value)); }
      }
    }

    method ParseAndAt(transformM: bool) returns (r: Option<Expr>)
      requires next <= |tokens|
      modifies this
      ensures Follows(ParseAnd(tokens[old(next)..], transformM), r)
      ensures r.Some? ==> old(next) < next
      decreases |tokens| - next, 1
    {
      r := ParseFactorAt(transformM);
      if r.None? { return; }
      var l := r.value;
      var more := CheckToken(TAnd);
      if more {
        r := ParseAndAt(transformM);
        if r.Some? { r := Some(And(l, r.value)); }
      }
    }

    method ParseFactorAt(transformM: bool) returns (r: Option<Expr>)
      requires next <= |tokens|
      modifies this
      ensures Follows(ParseFactor(tokens[old(next)..], transformM), r)
      ensures r.Some? ==> old(next) < next
      decreases |tokens| - next, 0
    {
      ghost var ts := tokens[next..];
      if next == |tokens| { return None; }
      var token := tokens[next];
      next := next + 1;
      assert ts[1..] == tokens[next..];
      match token
      case TSym(x) =>
        if next < |tokens| && tokens[next].TRel? {
          if next + 1 < |tokens| && tokens[next + 1].TSym? {
            next := next + 2;
            assert ts[3..] == tokens[next..];
            return Some(Rel(tokens[next - 2].op, x, tokens[next - 1].a));
          }
          return None;
        }
        if transformM && x == Nmy(1) { return Some(And(M, Leaf(Ref(Sym(MODULES))))); }
        r := Some(Leaf(x));
      case TNot =>
        r := ParseFactorAt(transformM);
        if r.Some? { r := Some(Not(r.value)); }
      case TOpen =>
        r := ParseExprAt(transformM);
        if r.Some? {
          var closed := CheckToken(TClose);
          if !closed { r := None; }
        }
      case _ => r := None;
    }
  }

  /** Running the parser on the printed tokens gives what the grammar reads there, with the value kept, and
      the cursor is after the last token. */
  method Reparse(e: Expr) returns (e': Expr, cursor: nat)
    ensures cursor == |Print(e)| && ParseExpr(Print(e), false) == Some((e', [])) && Same(e, e')
  {
    PrintParse(e);
    var parser := new Parser(Print(e));
    assert parser.tokens[0..] == Print(e);
    var r := parser.ParseExprAt(false);
    e', cursor := r.value, parser.next;
  }

  /** The valuations meant are those of configurations. */
  lemma {:induction false} SameValue(cfg: Config, u: User, e: Expr, e': Expr)
    requires WellFormed(cfg) && Same(e, e')
    ensures Eval(cfg, u, e) == Eval(cfg, u, e')
  {
    EvalIsMeaning(cfg, u, e);
    EvalIsMeaning(cfg, u, e');
  }

  lemma {:induction false} EvalIsMeaning(cfg: Config, u: User, e: Expr)
    requires WellFormed(cfg)
    ensures Eval(cfg, u, e) ==
            Meaning(e, a => AtomTri(cfg, u, a), (op, x, y) => Holds(op, Compare(cfg, u, x, y)))
  {
    hide WellFormed, AtomTri, Compare, Holds;
    match e
    case And(l, r) => EvalIsMeaning(cfg, u, l); EvalIsMeaning(cfg, u, r);
    case Or(l, r) => EvalIsMeaning(cfg, u, l); EvalIsMeaning(cfg, u, r);
    case Not(f) => EvalIsMeaning(cfg, u, f);
    case _ =>
  }
}
