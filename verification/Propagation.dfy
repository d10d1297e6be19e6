/** How dependencies and `visible if` conditions spread from menu nodes to the properties below them,
    and how properties are gathered in symbols and choices. The tree is the one that was parsed. */
module KconfigPropagation {
  import opened Basics
  import opened KconfigModel
  import opened KconfigMenuTree
  import Text = KconfigExprText

  datatype NodeItem = SymItem(name: string) | ChoiceItem(choice: nat) | MenuItem | CommentItem | IfItem {
    predicate Carries() { SymItem? || ChoiceItem? }
  }

  /** A select or an imply. */
  datatype Target = Target(name: string, cond: Expr)

  /** The properties of a menu node. `prompt` is the condition of the prompt. */
  datatype Props = Props(
    dep: Expr,
    prompt: Option<Expr>,
    visibility: Expr,
    defaults: seq<Default>,
    ranges: seq<Range>,
    selects: seq<Target>,
    implies: seq<Target>)

  datatype SymProps = SymProps(
    directDep: Expr,
    defaults: seq<Default>,
    ranges: seq<Range>,
    selects: seq<Target>,
    implies: seq<Target>,
    revDep: Expr,
    weakRevDep: Expr)

  datatype ChoiceProps = ChoiceProps(directDep: Expr, defaults: seq<Default>)

  const NEW_SYM := SymProps(N, [], [], [], [], N, N)
  const NEW_CHOICE := ChoiceProps(N, [])

  /** What was gathered so far. */
  datatype Totals = Totals(syms: map<string, SymProps>, choices: map<nat, ChoiceProps>) {
    function SymOf(s: string): SymProps { SymIn(syms, s) }
    function ChoiceOf(c: nat): ChoiceProps { if c in choices then choices[c] else NEW_CHOICE }
  }

  // Expressions

  function MakeAnd(a: Expr, b: Expr): Expr {
    if a == Y then b else if b == Y then a else if a == N || b == N then N else And(a, b)
  }

  function MakeOr(a: Expr, b: Expr): Expr {
    if a == N then b else if b == N then a else if a == Y || b == Y then Y else Or(a, b)
  }

  /** Values for symbols, choices and comparisons. */
  datatype Valuation = Valuation(atom: Atom -> Tri, rel: (RelOp, Atom, Atom) -> Tri) {
    function Of(e: Expr): Tri { Text.Meaning(e, atom, rel) }

    /** n, m and y stand for themselves. */
    ghost predicate Sane() { forall t: Tri :: atom(Nmy(t)) == t }
  }

  /** The trivial simplifications do not change what an expression means. */
  lemma MakeMeans(v: Valuation, a: Expr, b: Expr)
    requires v.Sane()
    ensures v.Of(MakeAnd(a, b)) == Min(v.Of(a), v.Of(b)) && v.Of(MakeOr(a, b)) == Max(v.Of(a), v.Of(b))
  {}

  // Propagation to one node

  function AddToDefaults(s: seq<Default>, dep: Expr): seq<Default> {
    seq(|s|, i requires 0 <= i < |s| => s[i].(cond := MakeAnd(s[i].cond, dep)))
  }

  function AddToRanges(s: seq<Range>, dep: Expr): seq<Range> {
    seq(|s|, i requires 0 <= i < |s| => s[i].(cond := MakeAnd(s[i].cond, dep)))
  }

  function AddToTargets(s: seq<Target>, dep: Expr): seq<Target> {
    seq(|s|, i requires 0 <= i < |s| => s[i].(cond := MakeAnd(s[i].cond, dep)))
  }

  function AddToPrompt(prompt: Option<Expr>, extra: Expr): Option<Expr> {
    if prompt.None? then None else Some(MakeAnd(prompt.value, extra))
  }

  /** The properties of a node of `item` below a node that contributes `base` and `visibleIf`. */
  function Propagated(item: NodeItem, w: Props, base: Expr, visibleIf: Expr): Props {
    var dep := MakeAnd(w.dep, base);
    if item.Carries() then
      Props(dep, AddToPrompt(w.prompt, MakeAnd(visibleIf, dep)), w.visibility, AddToDefaults(w.defaults, dep),
            AddToRanges(w.ranges, dep), AddToTargets(w.selects, dep), AddToTargets(w.implies, dep))
    else w.(dep := dep, prompt := AddToPrompt(w.prompt, dep))
  }

  /** What a node contributes to the dependencies of its children: a choice its mode. */
  function BaseOf(item: NodeItem, p: Props): Expr {
    if item.ChoiceItem? then Leaf(Ref(Cho(item.choice))) else p.dep
  }

  function VisibleIf(item: NodeItem, p: Props, visibleIf: Expr): Expr {
    if item.MenuItem? then MakeAnd(visibleIf, p.visibility) else visibleIf
  }

  type Table = map<Id, Props>

  predicate Covers(w: Table, f: Forest) {
    f.Node? ==> f.id in w && Covers(w, f.list) && Covers(w, f.next)
  }

  /** `p` holds what propagation makes of the properties written in `w`, for the nodes of `f` and all
      below them. */
  predicate Done(item: Id -> NodeItem, w: Table, p: Table, f: Forest, base: Expr, visibleIf: Expr) {
    f.Node? ==>
      && f.id in w && f.id in p && p[f.id] == Propagated(item(f.id), w[f.id], base, visibleIf)
      && Done(item, w, p, f.list, BaseOf(item(f.id), p[f.id]), VisibleIf(item(f.id), w[f.id], visibleIf))
      && Done(item, w, p, f.next, base, visibleIf)
  }

  /** Done for the nodes of the top level of `f`; those below are still as written. */
  predicate Begun(item: Id -> NodeItem, w: Table, p: Table, f: Forest, base: Expr, visibleIf: Expr) {
    f.Node? ==>
      && f.id in w && f.id in p && p[f.id] == Propagated(item(f.id), w[f.id], base, visibleIf)
      && Untouched(w, p, f.list) && Begun(item, w, p, f.next, base, visibleIf)
  }

  predicate Untouched(w: Table, p: Table, f: Forest) {
    f.Node? ==> f.id in w && f.id in p && p[f.id] == w[f.id] && Untouched(w, p, f.list) && Untouched(w, p, f.next)
  }

  ghost predicate SameTable(p: Table, p': Table, x: Id) {
    (x in p <==> x in p') && (x in p ==> p[x] == p'[x])
  }

  /** Nothing but the properties of nodes in `f` has changed. */
  ghost predicate OnlyIn(p: Table, p': Table, f: Forest) {
    forall x :: Times(f, x) == 0 ==> SameTable(p, p', x)
  }

  // Gathering

  /** The order in which nodes add to symbols and choices: symbols before, choices after what is
      below them. */
  function Order(item: Id -> NodeItem, f: Forest): seq<Id> {
    if f.Nil? then []
    else
      (if item(f.id).SymItem? then [f.id] else []) + Order(item, f.list) +
      (if item(f.id).ChoiceItem? then [f.id] else []) + Order(item, f.next)
  }

  /** The expression that selects, or implies (`weak`), a symbol. */
  function Reverse(m: SymProps, weak: bool): Expr { if weak then m.weakRevDep else m.revDep }

  function WithReverse(m: SymProps, weak: bool, e: Expr): SymProps {
    if weak then m.(weakRevDep := e) else m.(revDep := e)
  }

  function SymIn(syms: map<string, SymProps>, s: string): SymProps { if s in syms then syms[s] else NEW_SYM }

  /** The selects or implies of `s` are added to their targets. */
  function AddReverse(syms: map<string, SymProps>, s: string, targets: seq<Target>, weak: bool): map<string, SymProps> {
    if targets == [] then syms
    else
      var before := AddReverse(syms, s, targets[..|targets| - 1], weak);
      var t := targets[|targets| - 1];
      var m := SymIn(before, t.name);
      before[t.name := WithReverse(m, weak, MakeOr(Reverse(m, weak), MakeAnd(Leaf(Ref(Sym(s))), t.cond)))]
  }

  function WithNode(m: SymProps, p: Props): SymProps {
    m.(directDep := MakeOr(m.directDep, p.dep), defaults := m.defaults + p.defaults, ranges := m.ranges + p.ranges,
       selects := m.selects + p.selects, implies := m.implies + p.implies)
  }

  /** What a node of `item` with the properties `p` adds. */
  function AddNode(item: NodeItem, p: Props, t: Totals): Totals {
    match item
    case SymItem(s) =>
      var own := t.syms[s := WithNode(t.SymOf(s), p)];
      t.(syms := AddReverse(AddReverse(own, s, p.selects, false), s, p.implies, true))
    case ChoiceItem(c) =>
      var m := t.ChoiceOf(c);
      t.(choices := t.choices[c := ChoiceProps(MakeOr(m.directDep, p.dep), m.defaults + p.defaults)])
    case _ => t
  }

  function AddAll(item: Id -> NodeItem, p: Table, order: seq<Id>, t: Totals): Totals {
    if order == [] then t
    else
      var x := order[|order| - 1];
      var before := AddAll(item, p, order[..|order| - 1], t);
      if x in p then AddNode(item(x), p[x], before) else before
  }

  lemma {:induction false} AddAllConcat(item: Id -> NodeItem, p: Table, a: seq<Id>, b: seq<Id>, t: Totals)
    ensures AddAll(item, p, a + b, t) == AddAll(item, p, b, AddAll(item, p, a, t))
  {
    if b == [] {
      assert a + b == a;
    } else {
      assert (a + b)[..|a + b| - 1] == a + b[..|b| - 1];
      AddAllConcat(item, p, a, b[..|b| - 1], t);
    }
  }

  lemma {:induction false} AddAllFrame(item: Id -> NodeItem, p: Table, p': Table, order: seq<Id>, t: Totals)
    requires forall x :: x in order ==> SameTable(p, p', x)
    ensures AddAll(item, p, order, t) == AddAll(item, p', order, t)
  {
    if order != [] {
      assert order[|order| - 1] in order;
      AddAllFrame(item, p, p', order[..|order| - 1], t);
    }
  }

  lemma {:induction false} OrderIn(item: Id -> NodeItem, f: Forest, x: Id)
    ensures x in Order(item, f) ==> Times(f, x) > 0
  {
    if f.Node? {
      OrderIn(item, f.list, x);
      OrderIn(item, f.next, x);
    }
  }

  // Frames

  ghost predicate Alike(p: Table, p': Table, f: Forest) {
    forall x :: Times(f, x) > 0 ==> SameTable(p, p', x)
  }

  lemma AlikeParts(p: Table, p': Table, f: Forest)
    requires Alike(p, p', f) && f.Node?
    ensures Alike(p, p', f.list) && Alike(p, p', f.next) && SameTable(p, p', f.id)
  {}

  lemma {:induction false} DoneFrame(item: Id -> NodeItem, w: Table, w': Table, p: Table, p': Table, f: Forest,
                                     base: Expr, visibleIf: Expr)
    requires Alike(w, w', f) && Alike(p, p', f) && Done(item, w, p, f, base, visibleIf)
    ensures Done(item, w', p', f, base, visibleIf)
  {
    hide Alike, Propagated;
    if f.Node? {
      AlikeParts(w, w', f);
      AlikeParts(p, p', f);
      DoneFrame(item, w, w', p, p', f.list, BaseOf(item(f.id), p[f.id]), VisibleIf(item(f.id), w[f.id], visibleIf));
      DoneFrame(item, w, w', p, p', f.next, base, visibleIf);
    }
  }

  lemma {:induction false} BegunFrame(item: Id -> NodeItem, w: Table, p: Table, p': Table, f: Forest, base: Expr,
                                      visibleIf: Expr)
    requires Alike(p, p', f)
    ensures Begun(item, w, p, f, base, visibleIf) ==> Begun(item, w, p', f, base, visibleIf)
    ensures Untouched(w, p, f) ==> Untouched(w, p', f)
    ensures Covers(p, f) ==> Covers(p', f)
  {
    hide Alike, Propagated;
    if f.Node? {
      AlikeParts(p, p', f);
      BegunFrame(item, w, p, p', f.list, base, visibleIf);
      BegunFrame(item, w, p, p', f.next, base, visibleIf);
    }
  }

  lemma {:induction false} UntouchedAt(w: Table, p: Table, f: Forest)
    ensures Untouched(w, p, f) ==> Alike(w, p, f)
    ensures Covers(w, f) && Alike(w, p, f) ==> Untouched(w, p, f) && Covers(p, f)
  {
    if f.Node? {
      UntouchedAt(w, p, f.list);
      UntouchedAt(w, p, f.next);
      if Untouched(w, p, f) {
        forall x | Times(f, x) > 0 ensures SameTable(w, p, x) {
          assert x == f.id || Times(f.list, x) > 0 || Times(f.next, x) > 0;
        }
      }
      if Covers(w, f) && Alike(w, p, f) { AlikeParts(w, p, f); }
    }
  }

  lemma {:induction false} DoneAppend(item: Id -> NodeItem, w: Table, p: Table, f: Forest, g: Forest, base: Expr,
                                      visibleIf: Expr)
    requires Done(item, w, p, f, base, visibleIf) && Done(item, w, p, g, base, visibleIf)
    ensures Done(item, w, p, Append(f, g), base, visibleIf)
  {
    hide Propagated, BaseOf, VisibleIf;
    if f.Node? { DoneAppend(item, w, p, f.next, g, base, visibleIf); }
  }

  lemma {:induction false} BegunAppend(item: Id -> NodeItem, w: Table, p: Table, f: Forest, g: Forest, base: Expr,
                                       visibleIf: Expr)
    requires Begun(item, w, p, f, base, visibleIf) && Begun(item, w, p, g, base, visibleIf)
    ensures Begun(item, w, p, Append(f, g), base, visibleIf)
  {
    hide Propagated, Untouched;
    if f.Node? { BegunAppend(item, w, p, f.next, g, base, visibleIf); }
  }

  lemma {:induction false} OrderAppend(item: Id -> NodeItem, f: Forest, g: Forest)
    ensures Order(item, Append(f, g)) == Order(item, f) + Order(item, g)
  {
    if f.Node? { OrderAppend(item, f.next, g); }
  }

  lemma {:induction false} AppendOne(f: Forest, x: Id, kids: Forest, g: Forest)
    ensures Append(Append(f, Node(x, kids, Nil)), g) == Append(f, Node(x, kids, g)) && Append(f, Nil) == f
  {
    if f.Node? { AppendOne(f.next, x, kids, g); }
  }

  lemma ChangeElsewhere(p: Table, x: Id, q: Props, f: Forest)
    requires Times(f, x) == 0
    ensures Alike(p, p[x := q], f)
  {}

  lemma AlikeElsewhere(p: Table, p': Table, f: Forest, g: Forest)
    requires OnlyIn(p, p', g) && forall x :: Times(f, x) > 0 ==> Times(g, x) == 0
    ensures Alike(p, p', f)
  {}

  /** One more node has got its dependencies. */
  lemma BegunStep(item: Id -> NodeItem, w: Table, p: Table, done: Forest, cur: Forest, base: Expr, visibleIf: Expr)
    requires cur.Node? && Begun(item, w, p, done, base, visibleIf) && Untouched(w, p, cur)
    requires Times(done, cur.id) == 0 && Times(cur.list, cur.id) == 0 && Times(cur.next, cur.id) == 0
    ensures var p' := p[cur.id := Propagated(item(cur.id), p[cur.id], base, visibleIf)];
            Begun(item, w, p', Append(done, Node(cur.id, cur.list, Nil)), base, visibleIf) && Untouched(w, p', cur.next)
  {
    hide Propagated, Times, Alike;
    var x := cur.id;
    var p' := p[x := Propagated(item(x), p[x], base, visibleIf)];
    ChangeElsewhere(p, x, p'[x], done);
    ChangeElsewhere(p, x, p'[x], cur.list);
    ChangeElsewhere(p, x, p'[x], cur.next);
    BegunFrame(item, w, p, p', done, base, visibleIf);
    BegunFrame(item, w, p, p', cur.list, base, visibleIf);
    BegunFrame(item, w, p, p', cur.next, base, visibleIf);
    BegunAppend(item, w, p', done, Node(x, cur.list, Nil), base, visibleIf);
  }

  lemma StillOnlyIn(w: Table, p: Table, x: Id, q: Props, f: Forest)
    requires OnlyIn(w, p, f) && Times(f, x) > 0
    ensures OnlyIn(w, p[x := q], f)
  {}

  lemma MovedOn(done: Forest, cur: Forest, f: Forest)
    requires cur.Node? && Append(done, cur) == f && forall x :: Times(done, x) + Times(cur, x) == Times(f, x)
    ensures var done' := Append(done, Node(cur.id, cur.list, Nil));
            Append(done', cur.next) == f && forall x :: Times(done', x) + Times(cur.next, x) == Times(f, x)
  {
    AppendOne(done, cur.id, cur.list, cur.next);
    forall y ensures Times(Append(done, Node(cur.id, cur.list, Nil)), y) + Times(cur.next, y) == Times(f, y) {
      AppendTimes(done, Node(cur.id, cur.list, Nil), y);
    }
  }

  // The code

  class Finalizer {
    const item: Id -> NodeItem
    var props: Table
    var syms: map<string, SymProps>
    var choices: map<nat, ChoiceProps>

    constructor (i: Id -> NodeItem, p: Table)
      ensures item == i && props == p && T() == Totals(map[], map[])
    {
      item := i;
      props := p;
      syms := map[];
      choices := map[];
    }

    function T(): Totals
      reads `syms, `choices
    {
      Totals(syms, choices)
    }

    /** _propagate_deps(), from the node `f.id` to its children. */
    method PropagateDeps(f: Forest, visibleIf: Expr)
      requires f.Node? && f.id in props && Covers(props, f.list) && Distinct(Node(f.id, f.list, Nil))
      modifies `props
      ensures f.id in props && props[f.id] == old(props)[f.id]
      ensures Begun(item, old(props), props, f.list, BaseOf(item(f.id), props[f.id]), visibleIf)
      ensures OnlyIn(old(props), props, f.list)
    {
      ghost var w, done := props, Nil;
      var base := BaseOf(item(f.id), props[f.id]);
      var cur := f.list;
      UntouchedAt(w, w, cur);
      while cur.Node?
        invariant Append(done, cur) == f.list && forall x :: Times(done, x) + Times(cur, x) == Times(f.list, x)
        invariant Begun(item, w, props, done, base, visibleIf) && Untouched(w, props, cur) && OnlyIn(w, props, f.list)
        invariant f.id in props && props[f.id] == w[f.id]
        decreases cur
      {
        hide Propagated, BaseOf, Begun, Times, OnlyIn, Append;
        var x := cur.id;
        CountsOf(f, cur, done);
        BegunStep(item, w, props, done, cur, base, visibleIf);
        StillOnlyIn(w, props, x, Propagated(item(x), props[x], base, visibleIf), f.list);
        MovedOn(done, cur, f.list);
        props := props[x := Propagated(item(x), props[x], base, visibleIf)];
        done, cur := Append(done, Node(x, cur.list, Nil)), cur.next;
      }
      AppendOne(done, 0, Nil, Nil);
    }

    /** _add_props_to_sym(). */
    method AddPropsToSym(x: Id)
      requires x in props && item(x).SymItem?
      modifies `syms
      ensures T() == AddNode(item(x), props[x], old(T()))
    {
      var s, p := item(x).name, props[x];
      syms := syms[s := WithNode(SymIn(syms, s), p)];
      AddTargets(s, p.selects, false);
      AddTargets(s, p.implies, true);
    }

    method AddTargets(s: string, targets: seq<Target>, weak: bool)
      modifies `syms
      ensures syms == AddReverse(old(syms), s, targets, weak)
    {
      for i := 0 to |targets|
        invariant syms == AddReverse(old(syms), s, targets[..i], weak)
      {
        var t := targets[i];
        var m := SymIn(syms, t.name);
        syms := syms[t.name := WithReverse(m, weak, MakeOr(Reverse(m, weak), MakeAnd(Leaf(Ref(Sym(s))), t.cond)))];
        assert targets[..i + 1][..i] == targets[..i];
      }
      assert targets[..|targets|] == targets;
    }

    /** _finalize_node(), as far as it concerns properties, for the first node of `f`: afterwards the
        properties of all nodes below it are what `Done` says, and they have been added to their
        symbols and choices in document order. */
    method FinalizeNode(f: Forest, visibleIf: Expr)
      requires f.Node? && f.id in props && Covers(props, f.list) && Distinct(Node(f.id, f.list, Nil))
      requires SymsAreLeaves(item, f)
      modifies this
      ensures f.id in props && props[f.id] == old(props)[f.id] && OnlyIn(old(props), props, f.list)
      ensures Done(item, old(props), props, f.list, BaseOf(item(f.id), props[f.id]),
                   VisibleIf(item(f.id), props[f.id], visibleIf))
      ensures T() == AddAll(item, props, Order(item, Node(f.id, f.list, Nil)), old(T()))
      decreases f
    {
      ghost var w, t0 := props, T();
      OneOrder(item, props, f.id, f.list, t0);
      if item(f.id).SymItem? {
        AddPropsToSym(f.id);
      } else if f.list.Node? {
        var v := VisibleIf(item(f.id), props[f.id], visibleIf);
        PropagateDeps(f, v);
        FinalizeChildren(f, v, w);
        OneOrder(item, props, f.id, f.list, t0);
      }
      if item(f.id).ChoiceItem? {
        var c, p := item(f.id).choice, props[f.id];
        var m := T().ChoiceOf(c);
        choices := choices[c := ChoiceProps(MakeOr(m.directDep, p.dep), m.defaults + p.defaults)];
      }
    }

    method FinalizeChildren(f: Forest, visibleIf: Expr, ghost w: Table)
      requires f.Node? && f.id in props && Distinct(Node(f.id, f.list, Nil)) && SymsAreLeaves(item, f.list)
      requires OnlyIn(w, props, f.list)
      requires Begun(item, w, props, f.list, BaseOf(item(f.id), props[f.id]), visibleIf)
      modifies this
      ensures f.id in props && props[f.id] == old(props)[f.id] && OnlyIn(w, props, f.list)
      ensures Done(item, w, props, f.list, BaseOf(item(f.id), props[f.id]), visibleIf)
      ensures T() == AddAll(item, props, Order(item, f.list), old(T()))
      decreases f, 0
    {
      ghost var base, t0, done := BaseOf(item(f.id), props[f.id]), T(), Nil;
      var cur := f.list;
      while cur.Node?
        invariant Append(done, cur) == f.list && forall x :: Times(done, x) + Times(cur, x) == Times(f.list, x)
        invariant Done(item, w, props, done, base, visibleIf) && Begun(item, w, props, cur, base, visibleIf)
        invariant OnlyIn(w, props, f.list) && f.id in props && props[f.id] == old(props)[f.id]
        invariant T() == AddAll(item, props, Order(item, done), t0) && SymsAreLeaves(item, cur)
        decreases cur
      {
        hide Propagated, BaseOf, VisibleIf, Done, Begun, Times, OnlyIn, Append, Order, AddAll;
        ghost var p, t := props, T();
        Disjoint(f, cur, done);
        BegunFirst(item, w, p, cur, base, visibleIf);
        FinalizeNode(cur, visibleIf);
        ChildDone(item, w, p, props, done, cur, base, visibleIf);
        ChildAdded(item, p, props, done, cur, t0);
        OnlyInPart(w, p, props, cur.list, f.list);
        OutsideAlike(p, props, f.id, cur.list);
        MovedOn(done, cur, f.list);
        done, cur := Append(done, Node(cur.id, cur.list, Nil)), cur.next;
      }
      AppendOne(done, 0, Nil, Nil);
    }
  }

  /** The first of the remaining nodes occurs nowhere else. */
  lemma CountsOf(f: Forest, cur: Forest, done: Forest)
    requires f.Node? && cur.Node? && Distinct(Node(f.id, f.list, Nil))
    requires forall x :: Times(done, x) + Times(cur, x) == Times(f.list, x)
    ensures var x := cur.id;
            && Times(f.list, x) > 0 && x != f.id
            && Times(done, x) == 0 && Times(cur.list, x) == 0 && Times(cur.next, x) == 0
  {
    assert Times(Node(f.id, f.list, Nil), cur.id) <= 1;
  }

  /** The remaining nodes, their children and the nodes before them are disjoint. */
  lemma Disjoint(f: Forest, cur: Forest, done: Forest)
    requires f.Node? && cur.Node? && Distinct(Node(f.id, f.list, Nil))
    requires forall x :: Times(done, x) + Times(cur, x) == Times(f.list, x)
    ensures Distinct(Node(cur.id, cur.list, Nil)) && Times(cur.list, f.id) == 0
    ensures forall x :: Times(cur.list, x) > 0 ==>
              Times(done, x) == 0 && Times(cur.next, x) == 0 && Times(f.list, x) > 0
    ensures Times(done, cur.id) == 0 && Times(cur.list, cur.id) == 0 && Times(cur.next, cur.id) == 0
  {
    forall x
      ensures Times(Node(cur.id, cur.list, Nil), x) <= 1
      ensures Times(cur.list, x) > 0 ==> Times(done, x) == 0 && Times(cur.next, x) == 0 && Times(f.list, x) > 0
    {
      assert Times(Node(f.id, f.list, Nil), x) <= 1;
      assert Times(f.list, x) <= 1;
    }
    assert Times(Node(f.id, f.list, Nil), cur.id) <= 1;
    assert Times(Node(f.id, f.list, Nil), f.id) <= 1;
  }

  lemma BegunFirst(item: Id -> NodeItem, w: Table, p: Table, f: Forest, base: Expr, visibleIf: Expr)
    requires f.Node? && Begun(item, w, p, f, base, visibleIf)
    ensures f.id in w && f.id in p && p[f.id] == Propagated(item(f.id), w[f.id], base, visibleIf)
    ensures Covers(p, f.list) && Alike(w, p, f.list) && Begun(item, w, p, f.next, base, visibleIf)
    ensures VisibleIf(item(f.id), p[f.id], visibleIf) == VisibleIf(item(f.id), w[f.id], visibleIf)
  {
    UntouchedAt(w, p, f.list);
    UntouchedCovers(w, p, f.list);
  }

  lemma {:induction false} UntouchedCovers(w: Table, p: Table, f: Forest)
    requires Untouched(w, p, f)
    ensures Covers(p, f)
  {
    if f.Node? {
      UntouchedCovers(w, p, f.list);
      UntouchedCovers(w, p, f.next);
    }
  }

  /** After the first of the remaining nodes has been finalized. */
  lemma ChildDone(item: Id -> NodeItem, w: Table, p: Table, p': Table, done: Forest, cur: Forest, base: Expr,
                  visibleIf: Expr)
    requires cur.Node? && Done(item, w, p, done, base, visibleIf) && Begun(item, w, p, cur, base, visibleIf)
    requires OnlyIn(p, p', cur.list) && cur.id in p' && p'[cur.id] == p[cur.id]
    requires forall x :: Times(cur.list, x) > 0 ==> Times(done, x) == 0 && Times(cur.next, x) == 0
    requires Done(item, p, p', cur.list, BaseOf(item(cur.id), p'[cur.id]),
                  VisibleIf(item(cur.id), p'[cur.id], visibleIf))
    ensures Done(item, w, p', Append(done, Node(cur.id, cur.list, Nil)), base, visibleIf)
    ensures Begun(item, w, p', cur.next, base, visibleIf)
  {
    hide Propagated, BaseOf, VisibleIf, Begun, OnlyIn, Alike, Untouched, Times;
    BegunFirst(item, w, p, cur, base, visibleIf);
    AlikeElsewhere(p, p', done, cur.list);
    AlikeElsewhere(p, p', cur.next, cur.list);
    BegunFrame(item, w, p, p', cur.next, base, visibleIf);
    AlikeSelf(w, done);
    DoneFrame(item, w, w, p, p', done, base, visibleIf);
    AlikeSelf(p', cur.list);
    AlikeBack(w, p, cur.list);
    DoneFrame(item, p, w, p', p', cur.list, BaseOf(item(cur.id), p'[cur.id]),
              VisibleIf(item(cur.id), p'[cur.id], visibleIf));
    assert Done(item, w, p', Nil, base, visibleIf);
    assert Done(item, w, p', Node(cur.id, cur.list, Nil), base, visibleIf);
    DoneAppend(item, w, p', done, Node(cur.id, cur.list, Nil), base, visibleIf);
  }

  lemma AlikeSelf(p: Table, f: Forest)
    ensures Alike(p, p, f)
  {}

  lemma AlikeBack(p: Table, p': Table, f: Forest)
    requires Alike(p, p', f)
    ensures Alike(p', p, f)
  {}

  lemma ChildAdded(item: Id -> NodeItem, p: Table, p': Table, done: Forest, cur: Forest, t0: Totals)
    requires cur.Node? && OnlyIn(p, p', cur.list) && forall x :: Times(cur.list, x) > 0 ==> Times(done, x) == 0
    ensures AddAll(item, p', Order(item, Append(done, Node(cur.id, cur.list, Nil))), t0) ==
            AddAll(item, p', Order(item, Node(cur.id, cur.list, Nil)), AddAll(item, p, Order(item, done), t0))
  {
    var own := Node(cur.id, cur.list, Nil);
    OrderAppend(item, done, own);
    AddAllConcat(item, p', Order(item, done), Order(item, own), t0);
    forall x | x in Order(item, done) ensures SameTable(p, p', x) {
      OrderIn(item, done, x);
    }
    AddAllFrame(item, p, p', Order(item, done), t0);
  }

  lemma OnlyInPart(w: Table, p: Table, p': Table, g: Forest, f: Forest)
    requires OnlyIn(w, p, f) && OnlyIn(p, p', g) && forall x :: Times(g, x) > 0 ==> Times(f, x) > 0
    ensures OnlyIn(w, p', f)
  {}

  lemma OutsideAlike(p: Table, p': Table, x: Id, f: Forest)
    requires OnlyIn(p, p', f) && Times(f, x) == 0
    ensures SameTable(p, p', x)
  {}

  /** What a node adds, with all that is below it. */
  lemma OneOrder(item: Id -> NodeItem, p: Table, x: Id, kids: Forest, t: Totals)
    requires x in p && (item(x).SymItem? ==> kids.Nil?)
    ensures AddAll(item, p, Order(item, Node(x, kids, Nil)), t) ==
            if item(x).SymItem? then AddNode(item(x), p[x], t)
            else var t' := AddAll(item, p, Order(item, kids), t);
              if item(x).ChoiceItem? then AddNode(item(x), p[x], t') else t'
  {
    var order := Order(item, Node(x, kids, Nil));
    assert Order(item, Nil) == [];
    if item(x).SymItem? {
      assert order == [x];
      assert AddAll(item, p, [], t) == t;
    } else if item(x).ChoiceItem? {
      assert order == Order(item, kids) + [x];
      assert order[..|order| - 1] == Order(item, kids);
    } else {
      assert order == Order(item, kids);
    }
  }

  /** As parsed. */
  predicate SymsAreLeaves(item: Id -> NodeItem, f: Forest) {
    f.Node? ==> (item(f.id).SymItem? ==> f.list.Nil?) && SymsAreLeaves(item, f.list) && SymsAreLeaves(item, f.next)
  }
}
