/** What finalization makes of the tree of menu nodes: implicit submenus below symbols, flattening of
    nodes without a prompt, removal of `if` nodes. */
module KconfigMenuTree {

  type Id = nat

  /** A list of sibling nodes with their children: the first node, its children, its next siblings. */
  datatype Forest = Nil | Node(id: Id, list: Forest, next: Forest)

  datatype Sort = Symbol | Choice | Menu | Comment | If

  /** What is known about each node. `autoDep(a, b)` says that `b` has an automatic menu dependency on
      `a`; it is left arbitrary. */
  datatype Nodes = Nodes(sort: Id -> Sort, prompt: Id -> bool, autoDep: (Id, Id) -> bool) {
    predicate IsIf(x: Id) { sort(x).If? }

    /** Children below such a node are moved after it. */
    predicate Bare(x: Id) { !prompt(x) && !sort(x).Choice? }
  }

  /** As parsed: symbols have no children, `if` nodes no prompt. */
  predicate Parsed(d: Nodes, f: Forest) {
    f.Node? ==>
      && (d.sort(f.id).Symbol? ==> f.list.Nil?)
      && (d.IsIf(f.id) ==> !d.prompt(f.id))
      && Parsed(d, f.list) && Parsed(d, f.next)
  }

  /** The nodes in definition order. */
  function Walk(f: Forest): seq<Id> {
    if f.Nil? then [] else [f.id] + Walk(f.list) + Walk(f.next)
  }

  function Size(f: Forest): nat {
    if f.Nil? then 0 else 1 + Size(f.list) + Size(f.next)
  }

  function Append(f: Forest, g: Forest): (r: Forest)
    ensures Size(r) == Size(f) + Size(g)
  {
    if f.Nil? then g else Node(f.id, f.list, Append(f.next, g))
  }

  // What becomes of the tree

  /** The children of nodes without prompts come after them instead. */
  function Flatten(d: Nodes, f: Forest): Forest
    decreases Size(f)
  {
    if f.Nil? then Nil
    else if f.list.Node? && d.Bare(f.id) then Node(f.id, Nil, Flatten(d, Append(f.list, f.next)))
    else Node(f.id, f.list, Flatten(d, f.next))
  }

  function RemoveIfs(d: Nodes, f: Forest): Forest {
    if f.Nil? then Nil
    else if d.IsIf(f.id) then RemoveIfs(d, f.next)
    else Node(f.id, f.list, RemoveIfs(d, f.next))
  }

  function Settle(d: Nodes, f: Forest): Forest { RemoveIfs(d, Flatten(d, f)) }

  /** What becomes of the first node of `f`. A symbol takes the siblings after it that depend on it as
      children; the siblings left are still as they were. */
  function Finalize(d: Nodes, f: Forest): (r: Forest)
    requires f.Node?
    ensures r.Node? && r.id == f.id && Size(r.next) <= Size(f.next)
    decreases Size(f), 1
  {
    if d.sort(f.id).Symbol? then
      var (taken, left) := Absorb(d, f.id, f.next);
      Node(f.id, Settle(d, if taken.Nil? then f.list else taken), left)
    else Node(f.id, Settle(d, FinalizeAll(d, f.list)), f.next)
  }

  function Absorb(d: Nodes, x: Id, f: Forest): (r: (Forest, Forest))
    ensures Size(r.1) <= Size(f) && (r.0.Nil? ==> r.1 == f)
    decreases Size(f), 2
  {
    if f.Nil? || !d.autoDep(x, f.id) then (Nil, f)
    else
      var g := Finalize(d, f);
      var (taken, left) := Absorb(d, x, g.next);
      (Node(g.id, g.list, taken), left)
  }

  function FinalizeAll(d: Nodes, f: Forest): Forest
    decreases Size(f), 2
  {
    if f.Nil? then Nil
    else
      var g := Finalize(d, f);
      Node(g.id, g.list, FinalizeAll(d, g.next))
  }

  // Nothing is lost or reordered

  /** Without the `if` nodes. */
  function Kept(d: Nodes, s: seq<Id>): seq<Id> {
    if s == [] then [] else (if d.IsIf(s[0]) then [] else [s[0]]) + Kept(d, s[1..])
  }

  /** The same before `after`, along the links. */
  function KeptWalk(d: Nodes, f: Forest, after: seq<Id>): seq<Id> {
    if f.Nil? then after
    else
      var more := KeptWalk(d, f.list, KeptWalk(d, f.next, after));
      if d.IsIf(f.id) then more else [f.id] + more
  }

  lemma KeptCons(d: Nodes, x: Id, s: seq<Id>)
    ensures Kept(d, [x] + s) == (if d.IsIf(x) then [] else [x]) + Kept(d, s)
  {
    assert ([x] + s)[1..] == s;
  }

  lemma {:induction false} KeptConcat(d: Nodes, a: seq<Id>, b: seq<Id>)
    ensures Kept(d, a + b) == Kept(d, a) + Kept(d, b)
  {
    KeptFew(d, 0);
    hide Kept;
    if a == [] {
      assert a + b == b;
    } else {
      var x, rest := a[0], a[1..];
      KeptConcat(d, rest, b);
      KeptCons(d, x, rest);
      KeptCons(d, x, rest + b);
      assert a == [x] + rest && a + b == [x] + (rest + b);
    }
  }

  lemma KeptFew(d: Nodes, x: Id)
    ensures Kept(d, []) == [] && Kept(d, [x]) == if d.IsIf(x) then [] else [x]
  {}

  lemma {:induction false} KeptWalkIsKept(d: Nodes, f: Forest, after: seq<Id>)
    ensures KeptWalk(d, f, after) == Kept(d, Walk(f)) + after
  {
    KeptFew(d, if f.Node? then f.id else 0);
    hide Kept;
    if f.Node? {
      var rest := KeptWalk(d, f.next, after);
      KeptWalkIsKept(d, f.next, after);
      KeptWalkIsKept(d, f.list, rest);
      KeptConcat(d, [f.id] + Walk(f.list), Walk(f.next));
      KeptConcat(d, [f.id], Walk(f.list));
    }
  }

  lemma {:induction false} AppendKeeps(d: Nodes, f: Forest, g: Forest, after: seq<Id>)
    ensures KeptWalk(d, Append(f, g), after) == KeptWalk(d, f, KeptWalk(d, g, after))
    ensures CleanBelow(d, f) && CleanBelow(d, g) ==> CleanBelow(d, Append(f, g))
  {
    if f.Node? { AppendKeeps(d, f.next, g, after); }
  }

  /** No `if` nodes, and no children below nodes without a prompt other than choices. */
  predicate Clean(d: Nodes, f: Forest) {
    f.Node? ==> !d.IsIf(f.id) && (f.list.Node? ==> !d.Bare(f.id)) && Clean(d, f.list) && Clean(d, f.next)
  }

  /** Clean below the top level. */
  predicate CleanBelow(d: Nodes, f: Forest) {
    f.Node? ==> (d.IsIf(f.id) ==> !d.prompt(f.id)) && Clean(d, f.list) && CleanBelow(d, f.next)
  }

  /** No node of the top level is one whose children are to be moved. */
  predicate Flat(d: Nodes, f: Forest) {
    f.Node? ==> (f.list.Node? ==> !d.Bare(f.id)) && Flat(d, f.next)
  }

  lemma {:induction false} CleanIsCleanBelow(d: Nodes, f: Forest)
    requires Clean(d, f)
    ensures CleanBelow(d, f)
  {
    if f.Node? { CleanIsCleanBelow(d, f.next); }
  }

  lemma {:induction false} FlattenKeeps(d: Nodes, f: Forest, after: seq<Id>)
    requires CleanBelow(d, f)
    ensures var r := Flatten(d, f);
            && CleanBelow(d, r) && Flat(d, r)
            && KeptWalk(d, r, after) == KeptWalk(d, f, after)
    decreases Size(f)
  {
    if f.Node? {
      if f.list.Node? && d.Bare(f.id) {
        CleanIsCleanBelow(d, f.list);
        AppendKeeps(d, f.list, f.next, after);
        FlattenKeeps(d, Append(f.list, f.next), after);
      } else {
        FlattenKeeps(d, f.next, after);
      }
    }
  }

  lemma {:induction false} RemoveIfsKeeps(d: Nodes, f: Forest, after: seq<Id>)
    requires CleanBelow(d, f) && Flat(d, f)
    ensures var r := RemoveIfs(d, f);
            Clean(d, r) && KeptWalk(d, r, after) == KeptWalk(d, f, after)
  {
    if f.Node? { RemoveIfsKeeps(d, f.next, after); }
  }

  lemma SettleKeeps(d: Nodes, f: Forest, after: seq<Id>)
    requires CleanBelow(d, f)
    ensures var r := Settle(d, f);
            Clean(d, r) && KeptWalk(d, r, after) == KeptWalk(d, f, after)
  {
    FlattenKeeps(d, f, after);
    RemoveIfsKeeps(d, Flatten(d, f), after);
  }

  lemma {:induction false} FinalizeKeeps(d: Nodes, f: Forest, after: seq<Id>)
    requires f.Node? && Parsed(d, f)
    ensures var r := Finalize(d, f);
            && (d.IsIf(r.id) ==> !d.prompt(r.id)) && Clean(d, r.list) && Parsed(d, r.next)
            && KeptWalk(d, r, after) == KeptWalk(d, f, after)
    decreases Size(f), 1
  {
    hide Settle;
    if d.sort(f.id).Symbol? {
      AbsorbKeeps(d, f.id, f.next, after);
      var (taken, left) := Absorb(d, f.id, f.next);
      SettleKeeps(d, if taken.Nil? then f.list else taken, KeptWalk(d, left, after));
    } else {
      var rest := KeptWalk(d, f.next, after);
      FinalizeAllKeeps(d, f.list, rest);
      SettleKeeps(d, FinalizeAll(d, f.list), rest);
    }
  }

  lemma {:induction false} AbsorbKeeps(d: Nodes, sym: Id, f: Forest, after: seq<Id>)
    requires Parsed(d, f)
    ensures var (taken, left) := Absorb(d, sym, f);
            && CleanBelow(d, taken) && Parsed(d, left)
            && KeptWalk(d, taken, KeptWalk(d, left, after)) == KeptWalk(d, f, after)
    decreases Size(f), 2
  {
    if f.Node? && d.autoDep(sym, f.id) {
      FinalizeKeeps(d, f, after);
      AbsorbKeeps(d, sym, Finalize(d, f).next, after);
    }
  }

  lemma {:induction false} FinalizeAllKeeps(d: Nodes, f: Forest, after: seq<Id>)
    requires Parsed(d, f)
    ensures var r := FinalizeAll(d, f);
            CleanBelow(d, r) && KeptWalk(d, r, after) == KeptWalk(d, f, after)
    decreases Size(f), 2
  {
    if f.Node? {
      FinalizeKeeps(d, f, after);
      FinalizeAllKeeps(d, Finalize(d, f).next, after);
    }
  }

  lemma {:induction false} CleanWalk(d: Nodes, f: Forest)
    requires Clean(d, f)
    ensures Walk(f) == Kept(d, Walk(f))
  {
    KeptFew(d, if f.Node? then f.id else 0);
    hide Kept;
    if f.Node? {
      CleanWalk(d, f.list);
      CleanWalk(d, f.next);
      KeptConcat(d, [f.id] + Walk(f.list), Walk(f.next));
      KeptConcat(d, [f.id], Walk(f.list));
    }
  }

  /** Finalizing the top menu keeps exactly the nodes that are no `if`s, as often and in the order in
      which they were defined, and leaves no children below nodes without a prompt other than
      choices. */
  lemma TreeKept(d: Nodes, top: Id, f: Forest)
    requires d.sort(top).Menu? && Parsed(d, f)
    ensures var r := Finalize(d, Node(top, f, Nil));
            r.next.Nil? && Walk(r.list) == Kept(d, Walk(f)) && Clean(d, r.list)
  {
    var r := Finalize(d, Node(top, f, Nil));
    assert r == Node(top, Settle(d, FinalizeAll(d, f)), Nil);
    hide Finalize, Settle, FinalizeAll, Kept;
    FinalizeAllKeeps(d, f, []);
    SettleKeeps(d, FinalizeAll(d, f), []);
    CleanWalk(d, r.list);
    KeptWalkIsKept(d, f, []);
    KeptWalkIsKept(d, r.list, []);
    assert Kept(d, Walk(f)) + [] == Kept(d, Walk(f)) && Kept(d, Walk(r.list)) + [] == Kept(d, Walk(r.list));
  }

  // No node is duplicated

  /** How often a node occurs. */
  function Times(f: Forest, x: Id): nat {
    if f.Nil? then 0 else (if f.id == x then 1 else 0) + Times(f.list, x) + Times(f.next, x)
  }

  /** No node occurs twice. */
  ghost predicate Distinct(f: Forest) { forall x :: Times(f, x) <= 1 }

  lemma {:induction false} WalkTimes(f: Forest, x: Id)
    ensures multiset(Walk(f))[x] == Times(f, x)
  {
    if f.Node? {
      WalkTimes(f.list, x);
      WalkTimes(f.next, x);
    }
  }

  lemma {:induction false} AppendTimes(f: Forest, g: Forest, x: Id)
    ensures Times(Append(f, g), x) == Times(f, x) + Times(g, x)
  {
    if f.Node? { AppendTimes(f.next, g, x); }
  }

  lemma {:induction false} FlattenTimes(d: Nodes, f: Forest, x: Id)
    ensures Times(Flatten(d, f), x) == Times(f, x)
    decreases Size(f)
  {
    if f.Node? {
      if f.list.Node? && d.Bare(f.id) {
        AppendTimes(f.list, f.next, x);
        FlattenTimes(d, Append(f.list, f.next), x);
      } else {
        FlattenTimes(d, f.next, x);
      }
    }
  }

  lemma {:induction false} RemoveIfsTimes(d: Nodes, f: Forest, x: Id)
    ensures Times(RemoveIfs(d, f), x) <= Times(f, x)
  {
    if f.Node? { RemoveIfsTimes(d, f.next, x); }
  }

  lemma {:induction false} FinalizeTimes(d: Nodes, f: Forest, x: Id)
    requires f.Node?
    ensures Times(Finalize(d, f), x) <= Times(f, x)
    decreases Size(f), 1
  {
    var (taken, left) := Absorb(d, f.id, f.next);
    var kids := if !d.sort(f.id).Symbol? then FinalizeAll(d, f.list) else if taken.Nil? then f.list else taken;
    if d.sort(f.id).Symbol? { AbsorbTimes(d, f.id, f.next, x); } else { FinalizeAllTimes(d, f.list, x); }
    FlattenTimes(d, kids, x);
    RemoveIfsTimes(d, Flatten(d, kids), x);
  }

  lemma {:induction false} AbsorbTimes(d: Nodes, sym: Id, f: Forest, x: Id)
    ensures var (taken, left) := Absorb(d, sym, f); Times(taken, x) + Times(left, x) <= Times(f, x)
    decreases Size(f), 2
  {
    if f.Node? && d.autoDep(sym, f.id) {
      FinalizeTimes(d, f, x);
      AbsorbTimes(d, sym, Finalize(d, f).next, x);
    }
  }

  lemma {:induction false} FinalizeAllTimes(d: Nodes, f: Forest, x: Id)
    ensures Times(FinalizeAll(d, f), x) <= Times(f, x)
    decreases Size(f), 2
  {
    if f.Node? {
      FinalizeTimes(d, f, x);
      FinalizeAllTimes(d, Finalize(d, f).next, x);
    }
  }

  /** Finalizing a tree without duplicates gives one. */
  lemma FinalizeDistinct(d: Nodes, f: Forest)
    requires f.Node? && Distinct(f)
    ensures Distinct(Finalize(d, f)) && forall x :: Times(Finalize(d, f), x) <= Times(f, x)
  {
    forall x ensures Times(Finalize(d, f), x) <= Times(f, x) <= 1 { FinalizeTimes(d, f, x); }
  }
}
