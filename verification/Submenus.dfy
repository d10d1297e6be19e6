/** Implicit submenus: which nodes end up below which. A symbol takes the siblings after it that depend on
    it, or on symbols it has taken; every other node keeps what was below it. */
module KconfigSubmenus {
  import opened KconfigMenuTree

  // Which siblings are taken

  /** The symbols whose submenus are still open, innermost first, once `y` comes: those that `y` does not
      depend on are closed, up to the first it depends on. */
  function StillOpen(d: Nodes, open: seq<Id>, y: Id): seq<Id> {
    if open == [] then [] else if d.autoDep(open[0], y) then open else StillOpen(d, open[1..], y)
  }

  /** How many siblings are taken, one after the other, until one depends on no open symbol. */
  function RunLength(d: Nodes, open: seq<Id>, f: Forest): nat
    decreases f
  {
    if f.Nil? || StillOpen(d, open, f.id) == [] then 0
    else
      var now := StillOpen(d, open, f.id);
      1 + RunLength(d, if d.sort(f.id).Symbol? then [f.id] + now else now, f.next)
  }

  /** The first `n` siblings, with all that is below them. */
  function Take(f: Forest, n: nat): Forest {
    if f.Nil? || n == 0 then Nil else Node(f.id, f.list, Take(f.next, n - 1))
  }

  function Drop(f: Forest, n: nat): Forest {
    if f.Nil? || n == 0 then f else Drop(f.next, n - 1)
  }

  lemma {:induction false} OpenConcat(d: Nodes, inner: seq<Id>, outer: seq<Id>, y: Id)
    ensures StillOpen(d, inner + outer, y) ==
            if StillOpen(d, inner, y) != [] then StillOpen(d, inner, y) + outer else StillOpen(d, outer, y)
  {
    if inner == [] {
      assert inner + outer == outer;
    } else {
      assert (inner + outer)[1..] == inner[1..] + outer;
      OpenConcat(d, inner[1..], outer, y);
    }
  }

  /** First the inner symbols take what they can, then the outer ones. */
  lemma {:induction false} RunConcat(d: Nodes, inner: seq<Id>, outer: seq<Id>, f: Forest)
    ensures var n := RunLength(d, inner, f);
            RunLength(d, inner + outer, f) == n + RunLength(d, outer, Drop(f, n))
    decreases f
  {
    if f.Node? {
      OpenConcat(d, inner, outer, f.id);
      var now := StillOpen(d, inner, f.id);
      if now != [] {
        var more := if d.sort(f.id).Symbol? then [f.id] + now else now;
        RunConcat(d, more, outer, f.next);
        assert more + outer == if d.sort(f.id).Symbol? then [f.id] + (now + outer) else now + outer;
      }
    }
  }

  lemma OneOpen(d: Nodes, x: Id, y: Id)
    ensures StillOpen(d, [x], y) == if d.autoDep(x, y) then [x] else []
  {
    assert [x][1..] == [];
  }

  lemma {:induction false} DropMore(f: Forest, m: nat, n: nat)
    ensures Drop(f, m + n) == Drop(Drop(f, m), n)
  {
    if f.Node? && m > 0 { DropMore(f.next, m - 1, n); }
  }

  lemma {:induction false} AbsorbTakes(d: Nodes, x: Id, f: Forest)
    ensures Absorb(d, x, f).1 == Drop(f, RunLength(d, [x], f))
    decreases Size(f), 2
  {
    if f.Node? {
      OneOpen(d, x, f.id);
      if d.autoDep(x, f.id) {
        var g := Finalize(d, f);
        AbsorbTakes(d, x, g.next);
        if d.sort(f.id).Symbol? {
          AbsorbTakes(d, f.id, f.next);
          var n := RunLength(d, [f.id], f.next);
          RunConcat(d, [f.id], [x], f.next);
          DropMore(f.next, n, RunLength(d, [x], g.next));
        }
      }
    }
  }

  /** The sibling after the run does not depend on the outermost symbol. */
  lemma {:induction false} RunEnds(d: Nodes, open: seq<Id>, x: Id, f: Forest)
    requires open != [] && open[|open| - 1] == x
    ensures var left := Drop(f, RunLength(d, open, f)); left.Node? ==> !d.autoDep(x, left.id)
    decreases f
  {
    if f.Node? {
      OpenKeepsLast(d, open, f.id);
      var now := StillOpen(d, open, f.id);
      if now != [] { RunEnds(d, if d.sort(f.id).Symbol? then [f.id] + now else now, x, f.next); }
    }
  }

  lemma {:induction false} OpenKeepsLast(d: Nodes, open: seq<Id>, y: Id)
    requires open != []
    ensures var now := StillOpen(d, open, y); var x := open[|open| - 1];
            if now == [] then !d.autoDep(x, y) else now[|now| - 1] == x
  {
    if |open| > 1 && !d.autoDep(open[0], y) { OpenKeepsLast(d, open[1..], y); }
  }

  lemma {:induction false} TakeAndDrop(d: Nodes, f: Forest, n: nat, after: seq<Id>)
    ensures KeptWalk(d, f, after) == KeptWalk(d, Take(f, n), KeptWalk(d, Drop(f, n), after))
  {
    if f.Node? && n > 0 { TakeAndDrop(d, f.next, n - 1, after); }
  }

  /** Below a symbol are exactly the nodes of the siblings it takes, without `if`s, in their order. The first
      sibling that is left does not depend on it. */
  lemma SymbolTakes(d: Nodes, f: Forest)
    requires f.Node? && Parsed(d, f) && d.sort(f.id).Symbol?
    ensures var r, n := Finalize(d, f), RunLength(d, [f.id], f.next);
            && Walk(r.list) == Kept(d, Walk(Take(f.next, n)))
            && r.next == Drop(f.next, n) && (r.next.Node? ==> !d.autoDep(f.id, r.next.id))
  {
    var r, n := Finalize(d, f), RunLength(d, [f.id], f.next);
    AbsorbTakes(d, f.id, f.next);
    RunEnds(d, [f.id], f.id, f.next);
    FinalizeKeeps(d, f, []);
    var rest := KeptWalk(d, r.next, []);
    assert KeptWalk(d, f, [])[1..] == KeptWalk(d, f.next, []);
    assert KeptWalk(d, r, [])[1..] == KeptWalk(d, r.list, rest);
    hide Finalize, Kept, RunLength, Take, Drop, KeptWalk;
    TakeAndDrop(d, f.next, n, []);
    KeptWalkIsKept(d, r.list, rest);
    KeptWalkIsKept(d, Take(f.next, n), rest);
    CleanWalk(d, r.list);
    SameFront(Walk(r.list), Kept(d, Walk(Take(f.next, n))), rest);
  }

  lemma SameFront(a: seq<Id>, b: seq<Id>, c: seq<Id>)
    requires a + c == b + c
    ensures a == b
  {
    assert |a| == |b|;
    assert a == (a + c)[..|a|] && b == (b + c)[..|b|];
  }

  /** Below any other node are the nodes that were below it, without `if`s, in their order; its siblings
      stay. */
  lemma OthersKeep(d: Nodes, f: Forest)
    requires f.Node? && Parsed(d, f) && !d.sort(f.id).Symbol?
    ensures Walk(Finalize(d, f).list) == Kept(d, Walk(f.list)) && Finalize(d, f).next == f.next
  {
    var r := Finalize(d, f);
    FinalizeAllKeeps(d, f.list, []);
    SettleKeeps(d, FinalizeAll(d, f.list), []);
    hide Finalize, Kept, Settle, FinalizeAll;
    CleanWalk(d, r.list);
    KeptWalkIsKept(d, f.list, []);
    KeptWalkIsKept(d, r.list, []);
    assert Kept(d, Walk(f.list)) + [] == Kept(d, Walk(f.list)) && Kept(d, Walk(r.list)) + [] == Kept(d, Walk(r.list));
  }

  /** A sibling right after a symbol that depends on it becomes its first child. */
  lemma FirstChild(d: Nodes, f: Forest)
    requires f.Node? && f.next.Node? && d.sort(f.id).Symbol? && d.autoDep(f.id, f.next.id) && !d.IsIf(f.next.id)
    ensures var kids := Finalize(d, f).list; kids.Node? && kids.id == f.next.id
  {
    var taken := Absorb(d, f.id, f.next).0;
    assert taken.Node? && taken.id == f.next.id;
    assert Flatten(d, taken).Node? && Flatten(d, taken).id == taken.id;
  }

  // It stays that way

  /** `g` is a list of siblings somewhere in `f`. */
  ghost predicate Occurs(f: Forest, g: Forest) {
    f == g || (f.Node? && (Occurs(f.list, g) || Occurs(f.next, g)))
  }

  /** Somewhere in `f` there is `x` with `kids` below it. */
  ghost predicate Has(f: Forest, x: Id, kids: Forest) {
    f.Node? && ((f.id == x && f.list == kids) || Has(f.list, x, kids) || Has(f.next, x, kids))
  }

  lemma {:induction false} HasAppend(f: Forest, g: Forest, x: Id, kids: Forest)
    requires Has(f, x, kids) || Has(g, x, kids)
    ensures Has(Append(f, g), x, kids)
  {
    if f.Node? && !(f.id == x && f.list == kids) && !Has(f.list, x, kids) { HasAppend(f.next, g, x, kids); }
  }

  lemma {:induction false} HasFlatten(d: Nodes, f: Forest, x: Id, kids: Forest)
    requires Has(f, x, kids) && !d.Bare(x)
    ensures Has(Flatten(d, f), x, kids)
    decreases Size(f)
  {
    if f.list.Node? && d.Bare(f.id) {
      HasAppend(f.list, f.next, x, kids);
      HasFlatten(d, Append(f.list, f.next), x, kids);
    } else if !(f.id == x && f.list == kids) && !Has(f.list, x, kids) {
      HasFlatten(d, f.next, x, kids);
    }
  }

  lemma {:induction false} HasRemoveIfs(d: Nodes, f: Forest, x: Id, kids: Forest)
    requires Has(f, x, kids) && !d.Bare(x) && Flat(d, f) && CleanBelow(d, f)
    ensures Has(RemoveIfs(d, f), x, kids)
  {
    if d.IsIf(f.id) || (!(f.id == x && f.list == kids) && !Has(f.list, x, kids)) {
      HasRemoveIfs(d, f.next, x, kids);
    }
  }

  lemma HasSettle(d: Nodes, f: Forest, x: Id, kids: Forest)
    requires Has(f, x, kids) && !d.Bare(x) && CleanBelow(d, f)
    ensures Has(Settle(d, f), x, kids)
  {
    HasFlatten(d, f, x, kids);
    FlattenKeeps(d, f, []);
    HasRemoveIfs(d, Flatten(d, f), x, kids);
  }

  lemma {:induction false} FinalizeHas(d: Nodes, f: Forest, g: Forest)
    requires f.Node? && Parsed(d, f) && Occurs(f, g) && g.Node? && !d.Bare(g.id)
    ensures var r := Finalize(d, f);
            g == f || Occurs(r.next, g) || Has(r.list, g.id, Finalize(d, g).list)
    decreases Size(f), 1
  {
    hide Settle, Kept;
    if g != f {
      if d.sort(f.id).Symbol? {
        AbsorbHas(d, f.id, f.next, g);
        AbsorbKeeps(d, f.id, f.next, []);
        var (taken, left) := Absorb(d, f.id, f.next);
        if Has(taken, g.id, Finalize(d, g).list) { HasSettle(d, taken, g.id, Finalize(d, g).list); }
      } else if !Occurs(f.next, g) {
        FinalizeAllHas(d, f.list, g);
        FinalizeAllKeeps(d, f.list, []);
        HasSettle(d, FinalizeAll(d, f.list), g.id, Finalize(d, g).list);
      }
    }
  }

  lemma {:induction false} AbsorbHas(d: Nodes, x: Id, f: Forest, g: Forest)
    requires Parsed(d, f) && Occurs(f, g) && g.Node? && !d.Bare(g.id)
    ensures var (taken, left) := Absorb(d, x, f); Occurs(left, g) || Has(taken, g.id, Finalize(d, g).list)
    decreases Size(f), 2
  {
    if d.autoDep(x, f.id) {
      FinalizeHas(d, f, g);
      FinalizeKeeps(d, f, []);
      var h := Finalize(d, f);
      if Occurs(h.next, g) { AbsorbHas(d, x, h.next, g); }
    }
  }

  lemma {:induction false} FinalizeAllHas(d: Nodes, f: Forest, g: Forest)
    requires Parsed(d, f) && Occurs(f, g) && g.Node? && !d.Bare(g.id)
    ensures Has(FinalizeAll(d, f), g.id, Finalize(d, g).list)
    decreases Size(f), 2
  {
    FinalizeHas(d, f, g);
    FinalizeKeeps(d, f, []);
    var h := Finalize(d, f);
    if Occurs(h.next, g) { FinalizeAllHas(d, h.next, g); }
  }

  /** In the finished tree, every node that keeps its children at all has below it what finalizing it
      there gave. */
  lemma TreeHas(d: Nodes, top: Id, f: Forest, g: Forest)
    requires d.sort(top).Menu? && Parsed(d, f) && Occurs(f, g) && g.Node? && !d.Bare(g.id)
    ensures Has(Finalize(d, Node(top, f, Nil)).list, g.id, Finalize(d, g).list)
  {
    hide Settle, Kept;
    FinalizeAllHas(d, f, g);
    FinalizeAllKeeps(d, f, []);
    HasSettle(d, FinalizeAll(d, f), g.id, Finalize(d, g).list);
  }

  lemma {:induction false} OccursParsed(d: Nodes, f: Forest, g: Forest)
    requires Parsed(d, f) && Occurs(f, g)
    ensures Parsed(d, g)
  {
    if f != g { if Occurs(f.list, g) { OccursParsed(d, f.list, g); } else { OccursParsed(d, f.next, g); } }
  }

  lemma {:induction false} OccursTimes(f: Forest, g: Forest, x: Id)
    requires Occurs(f, g)
    ensures Times(g, x) <= Times(f, x)
  {
    if f != g { if Occurs(f.list, g) { OccursTimes(f.list, g, x); } else { OccursTimes(f.next, g, x); } }
  }
}
