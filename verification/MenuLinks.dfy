/** The menu nodes as they are: linked by `next`, `list` and `parent` fields that finalization rewrites
    in place. Forests say what the links mean. */
module KconfigMenuLinks {
  import opened Basics
  import opened KconfigMenuTree
  import opened KconfigSubmenus

  datatype Links = Links(next: map<Id, Option<Id>>, list: map<Id, Option<Id>>, parent: map<Id, Option<Id>>) {
    function Next(x: Id): Option<Id> { if x in next then next[x] else None }
    function List(x: Id): Option<Id> { if x in list then list[x] else None }
    function Parent(x: Id): Option<Id> { if x in parent then parent[x] else None }
  }

  /** The siblings from `first` up to `end`, below `p`, with all that is below them, are those of `f`. */
  ghost predicate Linked(l: Links, first: Option<Id>, f: Forest, p: Option<Id>, end: Option<Id>)
    decreases f
  {
    match f
    case Nil => first == end
    case Node(x, kids, rest) =>
      && first == Some(x) && l.Parent(x) == p
      && Linked(l, l.List(x), kids, Some(x), None) && Linked(l, l.Next(x), rest, p, end)
  }

  ghost predicate SameAt(l: Links, l': Links, x: Id) {
    l.Next(x) == l'.Next(x) && l.List(x) == l'.List(x) && l.Parent(x) == l'.Parent(x)
  }

  /** Nothing outside `f` has changed. */
  ghost predicate Only(l: Links, l': Links, f: Forest) {
    forall x :: Times(f, x) == 0 ==> SameAt(l, l', x)
  }

  lemma {:induction false} LinkedFrame(l: Links, l': Links, first: Option<Id>, f: Forest, p: Option<Id>,
                                       end: Option<Id>)
    requires forall x :: Times(f, x) > 0 ==> SameAt(l, l', x)
    ensures Linked(l, first, f, p, end) == Linked(l', first, f, p, end)
    decreases f
  {
    match f
    case Nil =>
    case Node(x, kids, rest) =>
      forall y ensures (Times(kids, y) > 0 ==> SameAt(l, l', y)) && (Times(rest, y) > 0 ==> SameAt(l, l', y)) {
        assert Times(f, y) >= Times(kids, y) + Times(rest, y);
      }
      assert Times(f, x) > 0;
      LinkedFrame(l, l', l.List(x), kids, Some(x), None);
      LinkedFrame(l, l', l.Next(x), rest, p, end);
  }

  lemma {:induction false} LinkedAppend(l: Links, first: Option<Id>, f: Forest, mid: Option<Id>, g: Forest,
                                        p: Option<Id>, end: Option<Id>)
    requires Linked(l, first, f, p, mid) && Linked(l, mid, g, p, end)
    ensures Linked(l, first, Append(f, g), p, end)
    decreases f
  {
    if f.Node? { LinkedAppend(l, l.Next(f.id), f.next, mid, g, p, end); }
  }

  lemma {:induction false} AppendFacts(f: Forest, g: Forest, h: Forest)
    ensures Append(Append(f, g), h) == Append(f, Append(g, h))
    ensures forall x :: Times(Append(f, g), x) == Times(f, x) + Times(g, x)
    ensures Append(f, Nil) == f
  {
    if f.Node? { AppendFacts(f.next, g, h); }
  }

  function Snoc(f: Forest, x: Id, kids: Forest): Forest { Append(f, Node(x, kids, Nil)) }

  /** One node further: `x` follows the siblings `done`. */
  lemma Advance(l: Links, first: Option<Id>, done: Forest, x: Id, kids: Forest, rest: Forest, p: Option<Id>)
    requires Linked(l, first, done, p, Some(x)) && l.Parent(x) == p && Linked(l, l.List(x), kids, Some(x), None)
    ensures Linked(l, first, Snoc(done, x, kids), p, l.Next(x))
    ensures Append(Snoc(done, x, kids), rest) == Append(done, Node(x, kids, rest))
    ensures forall y :: Times(Snoc(done, x, kids), y) == Times(done, y) + Times(kids, y) + if x == y then 1 else 0
  {
    AppendFacts(done, Node(x, kids, Nil), rest);
    InSnoc(done, x, kids);
    LinkedAppend(l, first, done, Some(x), Node(x, kids, Nil), p, l.Next(x));
  }

  /** The first of some siblings. */
  lemma FirstOf(l: Links, x: Id, f: Forest, p: Option<Id>)
    requires Linked(l, Some(x), f, p, None)
    ensures f.Node? && f.id == x && l.Parent(x) == p && Times(f, x) > 0
    ensures Linked(l, l.List(x), f.list, Some(x), None) && Linked(l, l.Next(x), f.next, p, None)
    ensures forall y :: Times(f, y) == Times(f.list, y) + Times(f.next, y) + if x == y then 1 else 0
  {}

  /** A change at one node is not seen in a forest without it. */
  lemma ChangeAt(l: Links, l': Links, x: Id, first: Option<Id>, f: Forest, p: Option<Id>, end: Option<Id>)
    requires Times(f, x) == 0 && forall y :: y != x ==> SameAt(l, l', y)
    ensures Linked(l, first, f, p, end) == Linked(l', first, f, p, end)
  {
    LinkedFrame(l, l', first, f, p, end);
  }

  lemma OneParent(l: Links, l': Links, x: Id, p: Option<Id>)
    requires l' == l.(parent := l.parent[x := p])
    ensures (forall y :: y != x ==> SameAt(l, l', y)) && l'.Parent(x) == p && l'.Next(x) == l.Next(x)
    ensures l'.List(x) == l.List(x)
  {}

  /** A change within `g` is not seen in a forest disjoint from it. */
  lemma Elsewhere(l: Links, l': Links, g: Forest, first: Option<Id>, f: Forest, p: Option<Id>, end: Option<Id>)
    requires Only(l, l', g) && forall y :: Times(f, y) > 0 ==> Times(g, y) == 0
    ensures Linked(l, first, f, p, end) == Linked(l', first, f, p, end)
  {
    LinkedFrame(l, l', first, f, p, end);
  }

  lemma OnlyWithin(l0: Links, l: Links, l': Links, g: Forest, f: Forest)
    requires Only(l0, l, f) && Only(l, l', g) && forall y :: Times(g, y) <= Times(f, y)
    ensures Only(l0, l', f)
  {}

  lemma OneNext(l: Links, l': Links, x: Id, to: Option<Id>)
    requires l' == l.(next := l.next[x := to])
    ensures (forall y :: y != x ==> SameAt(l, l', y)) && l'.Next(x) == to && l'.Parent(x) == l.Parent(x)
    ensures l'.List(x) == l.List(x)
  {}

  lemma OneLifted(l: Links, l': Links, x: Id)
    requires l' == l.(next := l.next[x := l.List(x)], list := l.list[x := None])
    ensures (forall y :: y != x ==> SameAt(l, l', y)) && l'.Next(x) == l.List(x) && l'.Parent(x) == l.Parent(x)
    ensures l'.List(x).None?
  {}

  lemma LiftedOnly(l0: Links, l: Links, l': Links, x: Id, kids: Forest)
    requires Only(l0, l, kids) && forall y :: y != x ==> SameAt(l, l', y)
    ensures Only(l0, l', Node(x, kids, Nil))
  {
    forall y | Times(Node(x, kids, Nil), y) == 0 ensures SameAt(l0, l', y) {
      assert Times(kids, y) == 0 && y != x;
      assert SameAt(l0, l, y) && SameAt(l, l', y);
    }
  }

  lemma OutsideSame(l: Links, l': Links, x: Id, f: Forest)
    requires Only(l, l', f) && Times(f, x) == 0
    ensures l.Next(x) == l'.Next(x) && l.List(x) == l'.List(x) && l.Parent(x) == l'.Parent(x)
  {}

  lemma StillSame(l0: Links, l: Links, l': Links, x: Id, f: Forest)
    requires Times(f, x) > 0 && Only(l0, l, f) && forall y :: y != x ==> SameAt(l, l', y)
    ensures Only(l0, l', f)
  {
    forall y | Times(f, y) == 0 ensures SameAt(l0, l', y) {
      assert SameAt(l0, l, y) && SameAt(l, l', y);
    }
  }

  lemma OneList(l: Links, l': Links, x: Id, to: Option<Id>)
    requires l' == l.(list := l.list[x := to])
    ensures (forall y :: y != x ==> SameAt(l, l', y)) && l'.Next(x) == l.Next(x) && l'.Parent(x) == l.Parent(x)
    ensures l'.List(x) == to
  {}

  lemma OneTilted(l: Links, l': Links, x: Id, to: Option<Id>)
    requires l' == l.(list := l.list[x := l.Next(x)], next := l.next[x := to])
    ensures (forall y :: y != x ==> SameAt(l, l', y)) && l'.Next(x) == to && l'.Parent(x) == l.Parent(x)
    ensures l'.List(x) == l.Next(x)
  {}

  lemma UsualAt(l: Links, l': Links, x: Id)
    requires SameAt(l, l', x)
    ensures l.Next(x) == l'.Next(x) && l.List(x) == l'.List(x) && l.Parent(x) == l'.Parent(x)
  {}

  lemma NothingYet(l: Links, l': Links, x: Id, cur: Option<Id>, f: Forest)
    requires l'.List(x) == cur && forall y :: y != x ==> SameAt(l, l', y)
    ensures Linked(l', l'.List(x), Nil, Some(x), cur) && Only(l, l', Node(x, f, Nil)) && forall y :: Times(Nil, y) == 0
  {}

  lemma NothingChanged(l: Links, f: Forest)
    ensures Only(l, l, f)
  {}

  lemma NothingBetween(l: Links, first: Option<Id>, p: Option<Id>)
    ensures Linked(l, first, Nil, p, first) && forall y :: Times(Nil, y) == 0
  {}

  lemma NodeTimes(x: Id, kids: Forest)
    ensures forall y :: Times(Node(x, kids, Nil), y) == Times(kids, y) + if x == y then 1 else 0
  {}

  /** Changes among the children of `x` are changes within its tree. */
  lemma WithNode(l: Links, l': Links, x: Id, g: Forest, f: Forest)
    requires Only(l, l', g) && forall y :: Times(g, y) <= Times(f, y)
    ensures Only(l, l', Node(x, f, Nil))
  {}

  lemma SameNode(l: Links, l': Links, x: Id, g: Forest, f: Forest)
    requires Only(l, l', Node(x, g, Nil)) && forall y :: Times(g, y) == Times(f, y)
    ensures Only(l, l', Node(x, f, Nil))
  {}

  /** The siblings from `first` on are those of `done`, followed by `x` with the children `kids`. */
  ghost predicate EndsAt(l: Links, first: Option<Id>, done: Forest, x: Id, kids: Forest, p: Option<Id>) {
    Linked(l, first, done, p, Some(x)) && l.Parent(x) == p && Linked(l, l.List(x), kids, Some(x), None)
  }

  lemma AbsorbStep(d: Nodes, x: Id, f: Forest)
    requires f.Node? && d.autoDep(x, f.id)
    ensures var (t, r) := Absorb(d, x, Finalize(d, f).next); Absorb(d, x, f) == (Node(f.id, Finalize(d, f).list, t), r)
  {}

  lemma AbsorbEnds(d: Nodes, l: Links, x: Id, first: Option<Id>, f: Forest, p: Option<Id>)
    requires Linked(l, first, f, p, None) && (first.Some? ==> !d.autoDep(x, first.value))
    ensures Absorb(d, x, f) == (Nil, f)
  {}

  lemma Joined(l: Links, x: Id, kids: Forest, rest: Forest, p: Option<Id>)
    requires l.Parent(x) == p && Linked(l, l.List(x), kids, Some(x), None) && Linked(l, l.Next(x), rest, p, None)
    ensures Linked(l, Some(x), Node(x, kids, rest), p, None)
  {}

  lemma SameThrough(l: Links, l1: Links, l2: Links, x: Id)
    requires SameAt(l, l1, x) && SameAt(l1, l2, x)
    ensures SameAt(l, l2, x)
  {}

  lemma OnlyAt(l: Links, l': Links, f: Forest, x: Id)
    requires Only(l, l', f) && Times(f, x) == 0
    ensures SameAt(l, l', x)
  {}

  lemma OnlyAll(l: Links, l': Links, f: Forest)
    requires forall x :: Times(f, x) == 0 ==> SameAt(l, l', x)
    ensures Only(l, l', f)
  {}

  lemma NoKids(l: Links, x: Id, f: Forest)
    requires Linked(l, l.List(x), f, Some(x), None) && f.Nil?
    ensures l.List(x).None?
  {}

  lemma NothingBefore(f: Forest)
    ensures Append(Nil, f) == f
  {}

  lemma NotNil(f: Forest, x: Id, kids: Forest)
    ensures Snoc(f, x, kids).Node?
  {}

  lemma NodeParts(f: Forest, y: Id)
    requires f.Node?
    ensures Times(f, y) == Times(f.list, y) + Times(f.next, y) + if f.id == y then 1 else 0
  {}

  lemma NothingLinked(l: Links, x: Id)
    requires l.List(x).None?
    ensures Linked(l, l.List(x), Nil, Some(x), None) && forall y :: Times(Nil, y) == 0
  {}

  lemma InSnoc(f: Forest, x: Id, kids: Forest)
    ensures forall y :: Times(Snoc(f, x, kids), y) == Times(f, y) + Times(kids, y) + if x == y then 1 else 0
  {
    AppendFacts(f, Node(x, kids, Nil), Nil);
    forall y ensures Times(Node(x, kids, Nil), y) == Times(kids, y) + if x == y then 1 else 0 {
      assert Times(Nil, y) == 0;
    }
  }

  lemma NoneLeft(l: Links, f: Forest, p: Option<Id>)
    requires Linked(l, None, f, p, None)
    ensures f.Nil?
  {}

  /** `x` is reached from `from` by following `next` k times. */
  ghost predicate Reaches(l: Links, from: Option<Id>, x: Id, k: nat)
    decreases k
  {
    from.Some? && if k == 0 then from.value == x else Reaches(l, l.Next(from.value), x, k - 1)
  }

  /** The parent of `x` is the node whose list of children holds it. */
  ghost predicate HeldByParent(l: Links, x: Id) {
    exists y, j: nat :: l.Parent(x) == Some(y) && Reaches(l, l.List(y), x, j)
  }

  lemma {:induction false} ParentHolds(l: Links, p: Id, k: nat, first: Option<Id>, f: Forest, x: Id)
    requires Linked(l, first, f, Some(p), None) && Times(f, x) > 0
    requires forall z, j: nat :: Reaches(l, first, z, j) ==> Reaches(l, l.List(p), z, k + j)
    ensures HeldByParent(l, x)
    decreases f
  {
    if f.id == x {
      assert Reaches(l, first, x, 0);
    } else if Times(f.list, x) > 0 {
      ParentHolds(l, f.id, 0, l.List(f.id), f.list, x);
    } else {
      forall z, j: nat | Reaches(l, l.Next(f.id), z, j) ensures Reaches(l, l.List(p), z, k + 1 + j) {
        assert Reaches(l, first, z, 1 + j);
      }
      ParentHolds(l, p, k + 1, l.Next(f.id), f.next, x);
    }
  }

  lemma ChildrenHeld(l: Links, p: Id, f: Forest, x: Id)
    requires Linked(l, l.List(p), f, Some(p), None) && Times(f, x) > 0
    ensures HeldByParent(l, x)
  {
    hide Linked, HeldByParent, Times;
    ParentHolds(l, p, 0, l.List(p), f, x);
  }

  /** The nodes below `top` are walked once each and held by their parents. */
  lemma Once(l: Links, top: Id, f: Forest)
    requires Linked(l, Some(top), f, None, None) && Distinct(f)
    ensures f.Node? && forall x :: multiset(Walk(f.list))[x] <= 1
    ensures forall x :: x in Walk(f.list) ==> HeldByParent(l, x)
  {
    hide Linked, HeldByParent, Times, Walk;
    FirstOf(l, top, f, None);
    forall x ensures multiset(Walk(f.list))[x] <= 1 {
      WalkTimes(f.list, x);
      assert Times(f, x) <= 1;
    }
    forall x | x in Walk(f.list) ensures HeldByParent(l, x) {
      assert multiset(Walk(f.list))[x] > 0;
      WalkTimes(f.list, x);
      ChildrenHeld(l, top, f.list, x);
    }
  }

  // What is below which node

  lemma {:induction false} HasLinked(l: Links, first: Option<Id>, f: Forest, p: Option<Id>, end: Option<Id>, x: Id,
                                     kids: Forest)
    requires Linked(l, first, f, p, end) && Has(f, x, kids)
    ensures Linked(l, l.List(x), kids, Some(x), None)
    decreases f
  {
    if !(f.id == x && f.list == kids) {
      if Has(f.list, x, kids) {
        HasLinked(l, l.List(f.id), f.list, Some(f.id), None, x, kids);
      } else {
        HasLinked(l, l.Next(f.id), f.next, p, end, x, kids);
      }
    }
  }

  lemma {:induction false} ReachedIsThere(l: Links, first: Option<Id>, f: Forest, p: Option<Id>, y: Id, j: nat)
    requires Linked(l, first, f, p, None) && Reaches(l, first, y, j)
    ensures Times(f, y) > 0
    decreases f
  {
    if j > 0 { ReachedIsThere(l, l.Next(f.id), f.next, p, y, j - 1); }
  }

  /** Below the first node of `g` are the nodes it takes, if it is a symbol, or that were below it, without
      `if`s and in their order. */
  ghost predicate Below(d: Nodes, l: Links, g: Forest)
    requires g.Node?
  {
    exists kids :: Linked(l, l.List(g.id), kids, Some(g.id), None) && Walk(kids) == Kept(d, Walk(Due(d, g)))
  }

  /** What is due below the first node of `g`. */
  function Due(d: Nodes, g: Forest): Forest
    requires g.Node?
  {
    if d.sort(g.id).Symbol? then Take(g.next, RunLength(d, [g.id], g.next)) else g.list
  }

  /** The node after the first one of `g` is below it exactly if that is a symbol it depends on. */
  ghost predicate NextBelow(d: Nodes, l: Links, g: Forest)
    requires g.Node? && g.next.Node?
  {
    l.Parent(g.next.id) == Some(g.id) <==> d.sort(g.id).Symbol? && d.autoDep(g.id, g.next.id)
  }

  lemma IsBelow(d: Nodes, l: Links, top: Id, f: Forest, g: Forest)
    requires d.sort(top).Menu? && Parsed(d, f) && Occurs(f, g) && g.Node? && !d.Bare(g.id)
    requires Linked(l, Some(top), Finalize(d, Node(top, f, Nil)), None, None)
    ensures Linked(l, l.List(g.id), Finalize(d, g).list, Some(g.id), None) && Below(d, l, g)
  {
    hide Linked, Finalize, Kept, Walk, Has, Occurs, Parsed;
    var r := Finalize(d, Node(top, f, Nil));
    FirstOf(l, top, r, None);
    TreeHas(d, top, f, g);
    HasLinked(l, l.List(top), r.list, Some(top), None, g.id, Finalize(d, g).list);
    OccursParsed(d, f, g);
    if d.sort(g.id).Symbol? { SymbolTakes(d, g); } else { OthersKeep(d, g); }
  }

  lemma IsNextBelow(d: Nodes, l: Links, f: Forest, g: Forest)
    requires Parsed(d, f) && Distinct(f) && Occurs(f, g) && g.Node? && g.next.Node? && !d.IsIf(g.next.id)
    requires Linked(l, l.List(g.id), Finalize(d, g).list, Some(g.id), None) && HeldByParent(l, g.next.id)
    ensures NextBelow(d, l, g)
  {
    var x, y, kids := g.id, g.next.id, Finalize(d, g).list;
    if d.sort(x).Symbol? && d.autoDep(x, y) {
      FirstChild(d, g);
    } else {
      NotBelow(d, f, g);
      hide Linked, Finalize, Occurs, Times, Reaches;
      if l.Parent(y) == Some(x) {
        var z, j: nat :| l.Parent(y) == Some(z) && Reaches(l, l.List(z), y, j);
        ReachedIsThere(l, l.List(x), kids, Some(x), y, j);
      }
    }
  }

  lemma NotBelow(d: Nodes, f: Forest, g: Forest)
    requires Parsed(d, f) && Distinct(f) && Occurs(f, g) && g.Node? && g.next.Node?
    requires !(d.sort(g.id).Symbol? && d.autoDep(g.id, g.next.id))
    ensures Times(Finalize(d, g).list, g.next.id) == 0
  {
    var y := g.next.id;
    OccursParsed(d, f, g);
    OccursTimes(f, g, y);
    FinalizeTimes(d, g, y);
    assert Times(f, y) <= 1;
  }

  lemma WalkHas(d: Nodes, f: Forest, g: Forest)
    requires Occurs(f, g) && g.Node? && !d.IsIf(g.id)
    ensures g.id in Kept(d, Walk(f))
  {
    OccursTimes(f, g, g.id);
    WalkTimes(f, g.id);
    assert Times(g, g.id) > 0;
    KeptHas(d, Walk(f), g.id);
  }

  lemma {:induction false} KeptHas(d: Nodes, s: seq<Id>, x: Id)
    requires x in s && !d.IsIf(x)
    ensures x in Kept(d, s)
  {
    if s[0] != x { KeptHas(d, s[1..], x); }
  }

  lemma {:induction false} NextOccurs(f: Forest, g: Forest)
    requires Occurs(f, g) && g.Node?
    ensures Occurs(f, g.next)
  {
    if f != g {
      if Occurs(f.list, g) { NextOccurs(f.list, g); } else { NextOccurs(f.next, g); }
    } else {
      assert Occurs(f.next, g.next);
    }
  }

  /** What is still ahead of a walk: for each node above the current one, the siblings after it. */
  datatype Above = Top | Up(id: Id, rest: Forest, above: Above)

  ghost predicate Climbs(l: Links, p: Option<Id>, a: Above)
    decreases a
  {
    match a
    case Top => p.None?
    case Up(x, rest, b) => p == Some(x) && Linked(l, l.Next(x), rest, l.Parent(x), None) && Climbs(l, l.Parent(x), b)
  }

  function Ahead(a: Above): seq<Id> { if a.Top? then [] else Walk(a.rest) + Ahead(a.above) }

  function AheadSize(a: Above): nat { if a.Top? then 0 else Size(a.rest) + AheadSize(a.above) }

  /** The same for a node with the given children and next siblings. */
  function Remaining(kids: Forest, rest: Forest, a: Above): seq<Id> { Walk(kids) + (Walk(rest) + Ahead(a)) }

  lemma RemainingBelow(x: Id, kids: Forest, rest: Forest, a: Above)
    requires kids.Node?
    ensures Remaining(kids, rest, a) == [kids.id] + Remaining(kids.list, kids.next, Up(x, rest, a))
  {}

  lemma RemainingNext(rest: Forest, a: Above)
    requires rest.Node?
    ensures Remaining(Nil, rest, a) == [rest.id] + Remaining(rest.list, rest.next, a)
  {}

  lemma NothingAhead(s: seq<Id>)
    ensures s + Ahead(Top) == s
  {}

  lemma RemainingAbove(a: Above)
    ensures Remaining(Nil, Nil, a) == Ahead(a)
    ensures a.Up? ==> Ahead(a) == Remaining(Nil, a.rest, a.above)
  {}

  /** The walk is at `x`, whose children are `kids` and whose next siblings are `rest`. */
  ghost predicate AtNode(l: Links, x: Id, kids: Forest, rest: Forest, a: Above) {
    && Linked(l, l.List(x), kids, Some(x), None) && Linked(l, l.Next(x), rest, l.Parent(x), None)
    && Climbs(l, l.Parent(x), a)
  }

  function StepsLeft(kids: Forest, rest: Forest, a: Above): nat { Size(kids) + Size(rest) + AheadSize(a) }

  lemma StartsAt(l: Links, top: Id, f: Forest)
    requires Linked(l, Some(top), Node(top, f, Nil), None, None)
    ensures AtNode(l, top, f, Nil, Top) && Walk(f) == Remaining(f, Nil, Top)
  {}

  lemma StepBelow(l: Links, x: Id, kids: Forest, rest: Forest, a: Above)
    requires AtNode(l, x, kids, rest, a) && l.List(x).Some?
    ensures kids.Node? && l.List(x) == Some(kids.id) && AtNode(l, kids.id, kids.list, kids.next, Up(x, rest, a))
    ensures Remaining(kids, rest, a) == [kids.id] + Remaining(kids.list, kids.next, Up(x, rest, a))
    ensures StepsLeft(kids.list, kids.next, Up(x, rest, a)) < StepsLeft(kids, rest, a)
  {
    hide Walk, Remaining;
    RemainingBelow(x, kids, rest, a);
  }

  lemma StepNext(l: Links, x: Id, kids: Forest, rest: Forest, a: Above)
    requires AtNode(l, x, kids, rest, a) && l.List(x).None? && l.Next(x).Some?
    ensures rest.Node? && l.Next(x) == Some(rest.id) && AtNode(l, rest.id, rest.list, rest.next, a)
    ensures Remaining(kids, rest, a) == [rest.id] + Remaining(rest.list, rest.next, a)
    ensures StepsLeft(rest.list, rest.next, a) < StepsLeft(kids, rest, a)
  {
    NoneLeft(l, kids, Some(x));
    RemainingNext(rest, a);
  }

  lemma StepUp(l: Links, x: Id, kids: Forest, rest: Forest, a: Above)
    requires AtNode(l, x, kids, rest, a) && l.List(x).None? && l.Next(x).None?
    ensures Climbs(l, l.Parent(x), a)
    ensures Remaining(kids, rest, a) == Ahead(a) && StepsLeft(kids, rest, a) == AheadSize(a)
  {
    hide Linked, Climbs, Remaining, Ahead;
    NoneLeft(l, kids, Some(x));
    NoneLeft(l, rest, l.Parent(x));
    RemainingAbove(a);
  }

  lemma StepAhead(l: Links, x: Id, a: Above)
    requires a.Up? && a.rest.Node? && Climbs(l, Some(x), a)
    ensures l.Next(x) == Some(a.rest.id) && AtNode(l, a.rest.id, a.rest.list, a.rest.next, a.above)
    ensures Ahead(a) == [a.rest.id] + Remaining(a.rest.list, a.rest.next, a.above)
    ensures StepsLeft(a.rest.list, a.rest.next, a.above) < AheadSize(a)
  {
    RemainingAbove(a);
    RemainingNext(a.rest, a.above);
  }

  lemma FlattenUnfolds(d: Nodes, f: Forest)
    ensures Flatten(d, f) ==
            if f.Nil? then Nil
            else if f.list.Node? && d.Bare(f.id) then Node(f.id, Nil, Flatten(d, Append(f.list, f.next)))
            else Node(f.id, f.list, Flatten(d, f.next))
  {}

  lemma FlattenStarts(l: Links, first: Id, f: Forest, p: Option<Id>)
    ensures Linked(l, Some(first), Nil, p, Some(first))
    ensures (forall g :: Append(Nil, g) == g) && forall x :: Times(Nil, x) == 0
    ensures Only(l, l, f)
  {}

  class Menus {
    const d: Nodes
    var next: map<Id, Option<Id>>
    var list: map<Id, Option<Id>>
    var parent: map<Id, Option<Id>>

    constructor (nodes: Nodes)
      ensures d == nodes
    {
      d := nodes;
      next, list, parent := map[], map[], map[];
    }

    function L(): Links
      reads this
    {
      Links(next, list, parent)
    }

    /** _flatten(). */
    method FlattenLevel(first: Id, ghost f: Forest, ghost p: Option<Id>)
      requires Linked(L(), Some(first), f, p, None) && Distinct(f)
      modifies this
      ensures Linked(L(), Some(first), Flatten(d, f), p, None) && Only(old(L()), L(), f)
    {
      FlattenStarts(L(), first, f, p);
      hide Linked, Times, SameAt, Only, Flatten, Append;
      var node := Some(first);
      ghost var done, todo := Nil, f;
      while node.Some?
        invariant Linked(L(), Some(first), done, p, node) && Linked(L(), node, todo, p, None)
        invariant forall x :: Times(done, x) + Times(todo, x) == Times(f, x)
        invariant Only(old(L()), L(), f)
        invariant Flatten(d, f) == Append(done, Flatten(d, todo))
        decreases Size(todo)
      {
        var x := node.value;
        FirstOf(L(), x, todo, p);
        FlattenUnfolds(d, todo);
        assert Times(f, x) == 1;
        ghost var kids, rest := todo.list, todo.next;
        ghost var l := L();
        if L().List(x).Some? && d.Bare(x) {
          FirstOf(l, l.List(x).value, kids, Some(x));
          Lift(x, kids, p);
          InSnoc(Nil, x, kids);
          Elsewhere(l, L(), Node(x, kids, Nil), Some(first), done, p, node);
          Elsewhere(l, L(), Node(x, kids, Nil), l.Next(x), rest, p, None);
          OnlyWithin(old(L()), l, L(), Node(x, kids, Nil), f);
          LinkedAppend(L(), L().Next(x), kids, l.Next(x), rest, p, None);
          AppendFacts(kids, rest, Nil);
          NothingLinked(L(), x);
          Advance(L(), Some(first), done, x, Nil, Flatten(d, Append(kids, rest)), p);
          done, todo := Snoc(done, x, Nil), Append(kids, rest);
        } else {
          if l.List(x).None? { NoneLeft(l, kids, Some(x)); }
          Advance(L(), Some(first), done, x, kids, Flatten(d, rest), p);
          done, todo := Snoc(done, x, kids), rest;
        }
        node := L().Next(x);
      }
      NoneLeft(L(), todo, p);
      FlattenUnfolds(d, todo);
      AppendFacts(done, Nil, Nil);
    }

    /** The children of `x` get the parent of `x`; `last` is the last of them. */
    method Reparent(x: Id, ghost kids: Forest, ghost p: Option<Id>) returns (last: Id, ghost done: Forest,
                    ghost k: Forest)
      requires kids.Node? && Linked(L(), L().List(x), kids, Some(x), None) && L().Parent(x) == p
      requires Times(kids, x) == 0 && Distinct(kids)
      modifies this`parent
      ensures kids == Snoc(done, last, k) && Linked(L(), L().List(x), done, p, Some(last))
      ensures L().Parent(last) == p && Linked(L(), L().List(last), k, Some(last), None)
      ensures Only(old(L()), L(), kids)
    {
      ghost var first := L().List(x);
      ghost var todo := kids;
      done := Nil;
      last := L().List(x).value;
      while true
        invariant Linked(L(), first, done, p, Some(last)) && Linked(L(), Some(last), todo, Some(x), None)
        invariant forall y :: Times(done, y) + Times(todo, y) == Times(kids, y)
        invariant Only(old(L()), L(), kids) && Append(done, todo) == kids
        decreases Size(todo)
      {
        hide Linked, Times;
        FirstOf(L(), last, todo, Some(x));
        assert Times(kids, last) == 1;
        ghost var l, rest := L(), todo.next;
        k := todo.list;
        parent := parent[last := L().Parent(x)];
        hide SameAt, Only;
        assert forall y :: y != last ==> SameAt(l, L(), y) by { OneParent(l, L(), last, p); }
        ChangeAt(l, L(), last, first, done, p, Some(last));
        ChangeAt(l, L(), last, l.List(last), k, Some(last), None);
        ChangeAt(l, L(), last, l.Next(last), rest, Some(x), None);
        StillSame(old(L()), l, L(), last, kids);
        if L().Next(last).None? {
          NoneLeft(L(), rest, Some(x));
          break;
        }
        Advance(L(), first, done, last, k, rest, p);
        done, todo := Snoc(done, last, k), rest;
        last := L().Next(last).value;
      }
    }

    /** The children of `x` are put after it. */
    method Lift(x: Id, ghost kids: Forest, ghost p: Option<Id>)
      requires kids.Node? && Linked(L(), L().List(x), kids, Some(x), None) && L().Parent(x) == p
      requires Times(kids, x) == 0 && Distinct(kids)
      modifies this
      ensures L().Parent(x) == p && L().List(x) == None
      ensures Linked(L(), L().Next(x), kids, p, old(L().Next(x)))
      ensures Only(old(L()), L(), Node(x, kids, Nil))
    {
      ghost var l0 := L();
      var last, done, k := Reparent(x, kids, p);
      hide Linked, Times, SameAt, Only;
      InSnoc(done, last, k);
      assert Times(kids, last) == 1;
      ghost var l := L();
      next := next[last := L().Next(x)];
      OneNext(l, L(), last, l.Next(x));
      ChangeAt(l, L(), last, l.List(x), done, p, Some(last));
      ChangeAt(l, L(), last, l.List(last), k, Some(last), None);
      Advance(L(), l.List(x), done, last, k, Nil, p);
      StillSame(l0, l, L(), last, kids);
      ghost var l1 := L();
      next, list := next[x := L().List(x)], list[x := None];
      OneLifted(l1, L(), x);
      ChangeAt(l1, L(), x, l1.List(x), kids, p, l.Next(x));
      LiftedOnly(l0, l1, L(), x, kids);
      OutsideSame(l0, l, x, kids);
    }

    /** The first sibling from `cur` on that is no `if` node. */
    method SkipIfs(cur: Option<Id>, ghost f: Forest, ghost p: Option<Id>) returns (r: Option<Id>, ghost g: Forest)
      requires Linked(L(), cur, f, p, None)
      ensures Linked(L(), r, g, p, None) && (g.Node? ==> !d.IsIf(g.id)) && RemoveIfs(d, g) == RemoveIfs(d, f)
      ensures forall y :: Times(g, y) <= Times(f, y)
      ensures Size(g) <= Size(f)
    {
      r, g := cur, f;
      while r.Some? && d.IsIf(r.value)
        invariant Linked(L(), r, g, p, None) && RemoveIfs(d, g) == RemoveIfs(d, f)
        invariant forall y :: Times(g, y) <= Times(f, y)
        invariant Size(g) <= Size(f)
        decreases Size(g)
      {
        r, g := L().Next(r.value), g.next;
      }
    }

    /** _remove_ifs(). */
    method RemoveIfNodes(x: Id, ghost f: Forest)
      requires Linked(L(), L().List(x), f, Some(x), None) && Times(f, x) == 0 && Distinct(f)
      modifies this`next, this`list
      ensures Linked(L(), L().List(x), RemoveIfs(d, f), Some(x), None)
      ensures L().Next(x) == old(L()).Next(x) && L().Parent(x) == old(L()).Parent(x)
      ensures Only(old(L()), L(), Node(x, f, Nil))
    {
      hide Linked, Times, SameAt, Only;
      ghost var l0, p := L(), Some(x);
      var cur, todo := SkipIfs(L().List(x), f, p);
      list := list[x := cur];
      OneList(l0, L(), x, cur);
      ChangeAt(l0, L(), x, cur, todo, p, None);
      ghost var done := Nil;
      NothingYet(l0, L(), x, cur, f);
      while cur.Some?
        invariant Linked(L(), L().List(x), done, p, cur) && Linked(L(), cur, todo, p, None)
        invariant forall y :: Times(done, y) + Times(todo, y) <= Times(f, y)
        invariant todo.Node? ==> !d.IsIf(todo.id)
        invariant RemoveIfs(d, f) == Append(done, RemoveIfs(d, todo))
        invariant L().Next(x) == l0.Next(x) && L().Parent(x) == l0.Parent(x) && Only(l0, L(), Node(x, f, Nil))
        decreases Size(todo)
      {
        ghost var l := L();
        FirstOf(l, cur.value, todo, p);
        assert Times(f, cur.value) == 1;
        ghost var kids := todo.list;
        var nx, rest := SkipIfs(L().Next(cur.value), todo.next, p);
        next := next[cur.value := nx];
        OneNext(l, L(), cur.value, nx);
        ChangeAt(l, L(), cur.value, l.List(x), done, p, cur);
        ChangeAt(l, L(), cur.value, l.List(cur.value), kids, cur, None);
        ChangeAt(l, L(), cur.value, nx, rest, p, None);
        UsualAt(l, L(), x);
        InSnoc(Nil, x, f);
        StillSame(l0, l, L(), cur.value, Node(x, f, Nil));
        Advance(L(), l.List(x), done, cur.value, kids, RemoveIfs(d, rest), p);
        done, todo := Snoc(done, cur.value, kids), rest;
        cur := nx;
      }
      NoneLeft(L(), todo, p);
      AppendFacts(done, Nil, Nil);
    }

    method SettleChildren(x: Id, ghost f: Forest)
      requires Linked(L(), L().List(x), f, Some(x), None) && Times(f, x) == 0 && Distinct(f)
      modifies this
      ensures Linked(L(), L().List(x), Settle(d, f), Some(x), None)
      ensures L().Next(x) == old(L()).Next(x) && L().Parent(x) == old(L()).Parent(x)
      ensures Only(old(L()), L(), Node(x, f, Nil))
    {
      hide Linked, Times, SameAt, Only;
      ghost var l0 := L();
      if L().List(x).Some? {
        FlattenLevel(L().List(x).value, f, Some(x));
        forall y ensures Times(Flatten(d, f), y) == Times(f, y) { FlattenTimes(d, f, y); }
        OutsideSame(l0, L(), x, f);
        ghost var l := L();
        RemoveIfNodes(x, Flatten(d, f));
        WithNode(l0, l, x, f, f);
        SameNode(l, L(), x, Flatten(d, f), f);
        OnlyWithin(l0, l, L(), Node(x, f, Nil), Node(x, f, Nil));
      } else {
        NoneLeft(L(), f, Some(x));
        NothingChanged(l0, Node(x, f, Nil));
      }
    }

    /** The sibling `c`, the first of `left`, is finalized and put below `x`, after `taken`. */
    method TakeNext(x: Id, c: Id, ghost taken: Forest, ghost left: Forest, ghost p: Option<Id>)
      requires left.Node? && left.id == c && Parsed(d, left) && Linked(L(), Some(c), left, p, None)
      requires Linked(L(), L().Next(x), taken, Some(x), Some(c))
      requires Times(left, x) == 0 && forall y :: Times(taken, y) + Times(left, y) <= 1
      modifies this
      ensures L().Next(x) == old(L()).Next(x) && L().List(x) == old(L()).List(x) && L().Parent(x) == old(L()).Parent(x)
      ensures EndsAt(L(), L().Next(x), taken, c, Finalize(d, left).list, Some(x))
      ensures Linked(L(), L().Next(c), Finalize(d, left).next, p, None)
      ensures Only(old(L()), L(), left)
      decreases Size(left), 3
    {
      hide Linked, Times, SameAt, Only, Finalize;
      ghost var l := L();
      forall y ensures Times(left, y) <= 1 { assert Times(taken, y) + Times(left, y) <= 1; }
      FirstOf(l, c, left, p);
      FinalizeNode(c, left, p);
      ghost var g := Finalize(d, left);
      forall y ensures Times(g, y) <= Times(left, y) { FinalizeTimes(d, left, y); }
      Elsewhere(l, L(), left, l.Next(x), taken, Some(x), Some(c));
      OutsideSame(l, L(), x, left);
      FirstOf(L(), c, g, p);
      ghost var l1 := L();
      parent := parent[c := Some(x)];
      OneParent(l1, L(), c, Some(x));
      UsualAt(l1, L(), x);
      ChangeAt(l1, L(), c, l1.Next(x), taken, Some(x), Some(c));
      ChangeAt(l1, L(), c, l1.List(c), g.list, Some(c), None);
      ChangeAt(l1, L(), c, l1.Next(c), g.next, p, None);
      StillSame(l, l1, L(), c, left);
    }

    /** The siblings after `x` up to `last` become its children. */
    method TiltUp(x: Id, last: Id, ghost done: Forest, ghost k: Forest, ghost left: Forest, ghost p: Option<Id>)
      requires EndsAt(L(), L().Next(x), done, last, k, Some(x)) && Linked(L(), L().Next(last), left, p, None)
      requires x != last && forall y :: y == x || y == last ==> Times(done, y) + Times(k, y) + Times(left, y) == 0
      modifies this`next, this`list
      ensures Linked(L(), L().List(x), Snoc(done, last, k), Some(x), None) && Linked(L(), L().Next(x), left, p, None)
      ensures L().Parent(x) == old(L()).Parent(x) && forall y :: y != x && y != last ==> SameAt(old(L()), L(), y)
    {
      hide Linked, Times, SameAt, Only;
      ghost var l := L();
      list := list[x := L().Next(x)];
      next := next[x := L().Next(last)];
      OneTilted(l, L(), x, l.Next(last));
      UsualAt(l, L(), last);
      ChangeAt(l, L(), x, l.Next(x), done, Some(x), Some(last));
      ChangeAt(l, L(), x, l.List(last), k, Some(last), None);
      ChangeAt(l, L(), x, l.Next(last), left, p, None);
      ghost var l1 := L();
      next := next[last := None];
      OneNext(l1, L(), last, None);
      UsualAt(l1, L(), x);
      ChangeAt(l1, L(), last, l.Next(x), done, Some(x), Some(last));
      ChangeAt(l1, L(), last, l.List(last), k, Some(last), None);
      ChangeAt(l1, L(), last, l.Next(last), left, p, None);
      Advance(L(), l.Next(x), done, last, k, Nil, Some(x));
      forall y | y != x && y != last ensures SameAt(l, L(), y) { SameThrough(l, l1, L(), y); }
    }

    /** The siblings after `x` that depend on it become its children. */
    method AbsorbSiblings(x: Id, ghost f: Forest, ghost p: Option<Id>) returns (ghost taken: Forest)
      requires f.Node? && f.id == x && f.list.Nil? && Parsed(d, f) && Linked(L(), Some(x), f, p, None) && Distinct(f)
      modifies this
      ensures taken == Absorb(d, x, f.next).0 && L().Parent(x) == p
      ensures Linked(L(), L().List(x), taken, Some(x), None)
      ensures Linked(L(), L().Next(x), Absorb(d, x, f.next).1, p, None)
      ensures forall y :: Times(taken, y) + Times(Absorb(d, x, f.next).1, y) + (if x == y then 1 else 0) <= Times(f, y)
      ensures Only(old(L()), L(), f)
      decreases Size(f), 1
    {
      hide Linked, Times, SameAt, Only, Absorb, Finalize, Snoc, Append;
      ghost var l0 := L();
      FirstOf(l0, x, f, p);
      NothingChanged(l0, f);
      var cur := x;
      ghost var left, done, k := f.next, Nil, Nil;
      taken := Nil;
      NothingBetween(l0, l0.Next(x), Some(x));
      NothingBefore(Absorb(d, x, left).0);
      NoKids(l0, x, f.list);
      while L().Next(cur).Some? && d.autoDep(x, L().Next(cur).value)
        invariant L().Parent(x) == p && L().List(x).None? && Only(l0, L(), f)
        invariant Linked(L(), L().Next(x), taken, Some(x), L().Next(cur)) && Linked(L(), L().Next(cur), left, p, None)
        invariant taken.Nil? ==> cur == x
        invariant taken.Node? ==> taken == Snoc(done, cur, k) && EndsAt(L(), L().Next(x), done, cur, k, Some(x))
        invariant var (t, r) := Absorb(d, x, left); Absorb(d, x, f.next) == (Append(taken, t), r)
        invariant Parsed(d, left) && Size(left) < Size(f)
        invariant forall y :: Times(taken, y) + Times(left, y) + (if x == y then 1 else 0) <= Times(f, y)
        decreases Size(left)
      {
        cur := L().Next(cur).value;
        ghost var l := L();
        FirstOf(l, cur, left, p);
        AbsorbStep(d, x, left);
        FinalizeKeeps(d, left, []);
        ghost var g := Finalize(d, left);
        TakeNext(x, cur, taken, left, p);
        OnlyWithin(l0, l, L(), left, f);
        Advance(L(), L().Next(x), taken, cur, g.list, Absorb(d, x, g.next).0, Some(x));
        forall y ensures Times(g.list, y) + Times(g.next, y) + (if cur == y then 1 else 0) <= Times(left, y) {
          FinalizeTimes(d, left, y);
          NodeParts(g, y);
        }
        done, k := taken, g.list;
        taken, left := Snoc(taken, cur, g.list), g.next;
        NotNil(done, cur, k);
      }
      AbsorbEnds(d, L(), x, L().Next(cur), left, p);
      AppendFacts(taken, Nil, Nil);
      InSnoc(done, cur, k);
      if cur != x {
        ghost var l := L();
        TiltUp(x, cur, done, k, left, p);
        forall y | Times(f, y) == 0 ensures SameAt(l0, L(), y) { OnlyAt(l0, l, f, y); SameThrough(l0, l, L(), y); }
        OnlyAll(l0, L(), f);
      } else {
        NothingLinked(L(), x);
      }
    }

    method FinalizeChildren(x: Id, ghost f: Forest)
      requires Linked(L(), L().List(x), f, Some(x), None) && Parsed(d, f) && Times(f, x) == 0 && Distinct(f)
      modifies this
      ensures Linked(L(), L().List(x), FinalizeAll(d, f), Some(x), None) && Only(old(L()), L(), f)
      decreases Size(f), 3
    {
      hide Linked, Times, SameAt, Only;
      ghost var l0, p := L(), Some(x);
      NothingChanged(l0, f);
      NothingBetween(l0, l0.List(x), p);
      var cur := L().List(x);
      ghost var done, todo := Nil, f;
      while cur.Some?
        invariant Linked(L(), L().List(x), done, p, cur) && Linked(L(), cur, todo, p, None)
        invariant forall y :: Times(done, y) + Times(todo, y) <= Times(f, y)
        invariant FinalizeAll(d, f) == Append(done, FinalizeAll(d, todo))
        invariant Parsed(d, todo) && Size(todo) <= Size(f) && Only(l0, L(), f)
        decreases Size(todo)
      {
        ghost var l := L();
        FirstOf(l, cur.value, todo, p);
        FinalizeNode(cur.value, todo, p);
        ghost var g := Finalize(d, todo);
        FinalizeKeeps(d, todo, []);
        forall y ensures Times(g, y) <= Times(todo, y) { FinalizeTimes(d, todo, y); }
        Elsewhere(l, L(), todo, l.List(x), done, p, cur);
        OutsideSame(l, L(), x, todo);
        OnlyWithin(l0, l, L(), todo, f);
        FirstOf(L(), cur.value, g, p);
        Advance(L(), L().List(x), done, cur.value, g.list, FinalizeAll(d, g.next), p);
        done, todo := Snoc(done, cur.value, g.list), g.next;
        cur := L().Next(cur.value);
      }
      NoneLeft(L(), todo, p);
      AppendFacts(done, Nil, Nil);
    }

    /** _finalize_node(), as far as it changes the tree: the node `x`, which is the first of `f`, becomes
        what `Finalize` says, and nothing outside `f` changes. */
    method FinalizeNode(x: Id, ghost f: Forest, ghost p: Option<Id>)
      requires Linked(L(), Some(x), f, p, None) && Parsed(d, f) && Distinct(f)
      modifies this
      ensures f.Node? && Linked(L(), Some(x), Finalize(d, f), p, None) && Only(old(L()), L(), f)
      decreases Size(f), 2
    {
      hide Linked, Times, SameAt, Only, Settle, Absorb, FinalizeAll;
      ghost var l0 := L();
      FirstOf(l0, x, f, p);
      ghost var kids, left;
      if d.sort(x).Symbol? {
        kids := AbsorbSiblings(x, f, p);
        left := Absorb(d, x, f.next).1;
      } else {
        FinalizeChildren(x, f.list);
        kids, left := FinalizeAll(d, f.list), f.next;
        forall y ensures Times(kids, y) <= Times(f.list, y) { FinalizeAllTimes(d, f.list, y); }
        Elsewhere(l0, L(), f.list, l0.Next(x), left, p, None);
        OutsideSame(l0, L(), x, f.list);
        NothingChanged(l0, f);
        OnlyWithin(l0, l0, L(), f.list, f);
      }
      assert Finalize(d, f) == Node(x, Settle(d, kids), left);
      ghost var l := L();
      SettleNode(x, kids, left, p);
      NodeTimes(x, kids);
      OnlyWithin(l0, l, L(), Node(x, kids, Nil), f);
    }

    /** The last part of it. */
    method SettleNode(x: Id, ghost kids: Forest, ghost left: Forest, ghost p: Option<Id>)
      requires Linked(L(), L().List(x), kids, Some(x), None) && Linked(L(), L().Next(x), left, p, None)
      requires L().Parent(x) == p
      requires Times(left, x) == 0 && Times(kids, x) == 0 && forall y :: Times(kids, y) + Times(left, y) <= 1
      modifies this
      ensures Linked(L(), Some(x), Node(x, Settle(d, kids), left), p, None) && Only(old(L()), L(), Node(x, kids, Nil))
    {
      hide Linked, Times, SameAt, Only, Settle;
      ghost var l := L();
      forall y ensures Times(kids, y) <= 1 { assert Times(kids, y) + Times(left, y) <= 1; }
      SettleChildren(x, kids);
      NodeTimes(x, kids);
      Elsewhere(l, L(), Node(x, kids, Nil), l.Next(x), left, p, None);
      Joined(L(), x, Settle(d, kids), left, p);
    }

    /** node_iter(): the iterative walk yields the nodes below `top` in definition order. */
    method NodeIter(top: Id, ghost f: Forest) returns (visited: seq<Id>)
      requires Linked(L(), Some(top), Node(top, f, Nil), None, None)
      ensures visited == Walk(f)
    {
      hide Linked, Climbs, AtNode, Walk, Remaining, Ahead, StepsLeft;
      var node := top;
      ghost var kids, rest, above := f, Nil, Top;
      visited := [];
      StartsAt(L(), top, f);
      while true
        invariant AtNode(L(), node, kids, rest, above) && Walk(f) == visited + Remaining(kids, rest, above)
        decreases StepsLeft(kids, rest, above)
      {
        if L().List(node).Some? {
          StepBelow(L(), node, kids, rest, above);
          rest, above := kids.next, Up(node, rest, above);
          node, kids := L().List(node).value, kids.list;
        } else if L().Next(node).Some? {
          StepNext(L(), node, kids, rest, above);
          node, kids, rest := L().Next(node).value, rest.list, rest.next;
        } else {
          StepUp(L(), node, kids, rest, above);
          var found;
          node, found, above := ClimbFrom(node, above);
          if !found {
            NothingAhead(visited);
            return;
          }
          StepAhead(L(), node, above);
          node, kids, rest, above := L().Next(node).value, above.rest.list, above.rest.next, above.above;
        }
        visited := visited + [node];
      }
    }

    /** The nearest node above `x` that has a next sibling. */
    method ClimbFrom(x: Id, ghost a: Above) returns (node: Id, found: bool, ghost above: Above)
      requires Climbs(L(), L().Parent(x), a)
      ensures found ==> L().Next(node).Some? && above.Up? && above.rest.Node? && Climbs(L(), Some(node), above)
      ensures !found ==> above.Top?
      ensures Ahead(above) == Ahead(a) && AheadSize(above) <= AheadSize(a)
    {
      node, found, above := x, false, a;
      while L().Parent(node).Some?
        invariant Climbs(L(), L().Parent(node), above)
        invariant Ahead(above) == Ahead(a) && AheadSize(above) <= AheadSize(a)
        decreases above
      {
        node := L().Parent(node).value;
        if L().Next(node).Some? { return node, true, above; }
        above := above.above;
      }
    }

    /** After finalization the walk yields the nodes that are no `if`s, in the order of their definition. Below
        a node that keeps its children are those that are due there, and a sibling that comes right after such
        a node is below it exactly if that is a symbol it depends on. */
    method FinalizeTree(top: Id, ghost f: Forest) returns (visited: seq<Id>)
      requires Linked(L(), Some(top), Node(top, f, Nil), None, None) && Distinct(Node(top, f, Nil))
      requires d.sort(top).Menu? && Parsed(d, f)
      modifies this
      ensures visited == Kept(d, Walk(f)) && forall x :: multiset(visited)[x] <= 1
      ensures forall x :: x in visited ==> HeldByParent(L(), x)
      ensures forall g :: Occurs(f, g) && g.Node? && !d.Bare(g.id) ==> Below(d, L(), g)
      ensures forall g :: Occurs(f, g) && g.Node? && g.next.Node? && !d.Bare(g.id) && !d.IsIf(g.next.id) ==>
                            NextBelow(d, L(), g)
    {
      ghost var g := Finalize(d, Node(top, f, Nil));
      FinalizeDistinct(d, Node(top, f, Nil));
      hide Linked, Finalize, Kept, Walk, Reaches, HeldByParent, Below, NextBelow, Occurs;
      FinalizeNode(top, Node(top, f, Nil), None);
      TreeKept(d, top, f);
      visited := NodeIter(top, g.list);
      Once(L(), top, g);
      Distinctly(top, f);
      forall h | Occurs(f, h) && h.Node? && !d.Bare(h.id)
        ensures Below(d, L(), h) && (h.next.Node? && !d.IsIf(h.next.id) ==> NextBelow(d, L(), h))
      {
        IsBelow(d, L(), top, f, h);
        if h.next.Node? && !d.IsIf(h.next.id) {
          NextOccurs(f, h);
          WalkHas(d, f, h.next);
          IsNextBelow(d, L(), f, h);
        }
      }
    }
  }

  lemma Distinctly(top: Id, f: Forest)
    requires Distinct(Node(top, f, Nil))
    ensures Distinct(f)
  {
    forall x ensures Times(f, x) <= 1 { assert Times(Node(top, f, Nil), x) <= 1; }
  }
}
