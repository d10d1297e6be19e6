/** Tail queues. A head and the link fields of an element have the same two words: a pointer to an
    element, and the address of such a pointer. The address of the first word is that of the pair, so
    pairs serve as addresses, and an element can be looked at as a head. */
module TailQueue {

  import opened Basics

  type Elem = nat

  datatype Pair = Head(h: nat) | Entry(e: Elem)

  /** tqh_first or tqe_next, and tqh_last or tqe_prev, of every pair. */
  datatype Memory = Memory(next: map<Pair, Option<Elem>>, prev: map<Pair, Pair>)

  /** Where the pointer to element `i` of `q` is stored, or that to nothing at the end. */
  function Slot(h: nat, q: seq<Elem>, i: nat): Pair
    requires i <= |q|
  {
    if i == 0 then Head(h) else Entry(q[i - 1])
  }

  function At(q: seq<Elem>, i: nat): Option<Elem> { if i < |q| then Some(q[i]) else None }

  /** The links of `h` represent the sequence `q`. */
  ghost predicate Holds(m: Memory, h: nat, q: seq<Elem>) {
    && (forall i :: 0 <= i <= |q| ==> Slot(h, q, i) in m.next && m.next[Slot(h, q, i)] == At(q, i))
    && (forall i :: 0 <= i < |q| ==> Entry(q[i]) in m.prev && m.prev[Entry(q[i])] == Slot(h, q, i))
    && Head(h) in m.prev && m.prev[Head(h)] == Slot(h, q, |q|)
  }

  type Contents = map<nat, seq<Elem>>

  /** No element is queued twice. */
  ghost predicate Distinct(c: Contents) {
    && (forall h :: h in c ==> NoDuplicates(c[h]))
    && forall h, h' :: h in c && h' in c && h != h' ==> Apart(c[h], c[h'])
  }

  ghost predicate Apart(a: seq<Elem>, b: seq<Elem>) { forall x :: x in a ==> x !in b }

  ghost predicate Queued(c: Contents, x: Elem) { exists h :: h in c && x in c[h] }

  ghost predicate Represents(m: Memory, c: Contents) {
    Distinct(c) && forall h :: h in c ==> Holds(m, h, c[h])
  }

  // What the operations do

  /** InsertBefore does not use the head; `h` says which queue holds `y`. */
  datatype Op =
    | Init(h: nat)
    | InsertHead(h: nat, x: Elem)
    | InsertTail(h: nat, x: Elem)
    | InsertAfter(h: nat, y: Elem, x: Elem)
    | InsertBefore(h: nat, y: Elem, x: Elem)
    | Remove(h: nat, x: Elem)
    | Concat(h: nat, h2: nat)

  function Inserted(q: seq<Elem>, k: nat, x: Elem): seq<Elem>
    requires k <= |q|
  {
    q[..k] + [x] + q[k..]
  }

  function Removed(q: seq<Elem>, k: nat): seq<Elem>
    requires k < |q|
  {
    q[..k] + q[k + 1..]
  }

  function IndexOf(q: seq<Elem>, x: Elem): (k: nat)
    requires x in q
    ensures k < |q| && q[k] == x
  {
    if q[0] == x then 0 else 1 + IndexOf(q[1..], x)
  }

  /** What a caller must see to: heads are initialized, new elements are in no queue, old ones in the
      queue that is named. */
  ghost predicate Allowed(c: Contents, op: Op) {
    match op
    case Init(_) => true
    case InsertHead(h, x) => h in c && !Queued(c, x)
    case InsertTail(h, x) => h in c && !Queued(c, x)
    case InsertAfter(h, y, x) => h in c && y in c[h] && !Queued(c, x)
    case InsertBefore(h, y, x) => h in c && y in c[h] && !Queued(c, x)
    case Remove(h, x) => h in c && x in c[h]
    case Concat(h1, h2) => h1 in c && h2 in c && h1 != h2
  }

  /** What the operation makes of the sequences. */
  ghost function After(c: Contents, op: Op): Contents
    requires Allowed(c, op)
  {
    match op
    case Init(h) => c[h := []]
    case InsertHead(h, x) => c[h := [x] + c[h]]
    case InsertTail(h, x) => c[h := c[h] + [x]]
    case InsertAfter(h, y, x) => c[h := Inserted(c[h], IndexOf(c[h], y) + 1, x)]
    case InsertBefore(h, y, x) => c[h := Inserted(c[h], IndexOf(c[h], y), x)]
    case Remove(h, x) => c[h := Removed(c[h], IndexOf(c[h], x))]
    case Concat(h1, h2) => c[h1 := c[h1] + c[h2]][h2 := []]
  }

  ghost predicate AllAllowed(c: Contents, ops: seq<Op>)
    decreases |ops|
  {
    ops == [] || (Allowed(c, ops[0]) && AllAllowed(After(c, ops[0]), ops[1..]))
  }

  ghost function AfterAll(c: Contents, ops: seq<Op>): Contents
    requires AllAllowed(c, ops)
    decreases |ops|
  {
    if ops == [] then c else AfterAll(After(c, ops[0]), ops[1..])
  }

  // Links of one queue

  /** What points back at slot `i`. */
  function Back(h: nat, q: seq<Elem>, i: nat): Pair
    requires i <= |q|
  {
    if i < |q| then Entry(q[i]) else Head(h)
  }

  ghost predicate NoDuplicates(q: seq<Elem>) { forall i, j :: 0 <= i < j < |q| ==> q[i] != q[j] }

  lemma SlotsDiffer(h: nat, q: seq<Elem>, i: nat, j: nat)
    requires NoDuplicates(q) && i < j <= |q|
    ensures Slot(h, q, i) != Slot(h, q, j) && Back(h, q, i) != Back(h, q, j)
  {}

  /** What `Holds` says about one place. */
  ghost predicate HoldsAt(m: Memory, h: nat, q: seq<Elem>, i: nat)
    requires i <= |q|
  {
    var s := Slot(h, q, i);
    s in m.next && m.next[s] == At(q, i) && Back(h, q, i) in m.prev && m.prev[Back(h, q, i)] == s
  }

  lemma HoldsPlace(m: Memory, h: nat, q: seq<Elem>, i: nat)
    requires Holds(m, h, q) && i <= |q|
    ensures HoldsAt(m, h, q, i)
  {}

  lemma HoldsAll(m: Memory, h: nat, q: seq<Elem>)
    requires forall i: nat :: i <= |q| ==> HoldsAt(m, h, q, i)
    ensures Holds(m, h, q)
  {
    forall i | 0 <= i <= |q| ensures Slot(h, q, i) in m.next && m.next[Slot(h, q, i)] == At(q, i) {
      assert HoldsAt(m, h, q, i);
    }
    forall i | 0 <= i < |q| ensures Entry(q[i]) in m.prev && m.prev[Entry(q[i])] == Slot(h, q, i) {
      assert HoldsAt(m, h, q, i);
    }
    assert HoldsAt(m, h, q, |q|);
  }

  lemma InsertedAt(h: nat, q: seq<Elem>, k: nat, x: Elem, i: nat)
    requires k <= |q| && i <= |q| + 1
    ensures var q' := Inserted(q, k, x);
            && |q'| == |q| + 1
            && At(q', i) == (if i < k then At(q, i) else if i == k then Some(x) else At(q, i - 1))
            && Back(h, q', i) == (if i < k then Back(h, q, i) else if i == k then Entry(x) else Back(h, q, i - 1))
            && Slot(h, q', i) == if i <= k then Slot(h, q, i) else if i == k + 1 then Entry(x) else Slot(h, q, i - 1)
  {}

  /** Putting `x` at position `k`. */
  lemma HoldsInserted(m: Memory, m': Memory, h: nat, q: seq<Elem>, k: nat, x: Elem)
    requires Holds(m, h, q) && k <= |q| && x !in q && NoDuplicates(q)
    requires m'.next == m.next[Entry(x) := At(q, k)][Slot(h, q, k) := Some(x)]
    requires m'.prev == m.prev[Entry(x) := Slot(h, q, k)][Back(h, q, k) := Entry(x)]
    ensures Holds(m', h, Inserted(q, k, x))
  {
    var q' := Inserted(q, k, x);
    assert |q'| == |q| + 1;
    forall i: nat | i <= |q'| ensures HoldsAt(m', h, q', i) { InsertedPlace(m, m', h, q, k, x, i); }
    HoldsAll(m', h, q');
  }

  lemma InsertedPlace(m: Memory, m': Memory, h: nat, q: seq<Elem>, k: nat, x: Elem, i: nat)
    requires Holds(m, h, q) && k <= |q| && x !in q && NoDuplicates(q) && i <= |q| + 1 == |Inserted(q, k, x)|
    requires m'.next == m.next[Entry(x) := At(q, k)][Slot(h, q, k) := Some(x)]
    requires m'.prev == m.prev[Entry(x) := Slot(h, q, k)][Back(h, q, k) := Entry(x)]
    ensures HoldsAt(m', h, Inserted(q, k, x), i)
  {
    hide Holds, Inserted, NoDuplicates, Slot, Back, At;
    InsertedAt(h, q, k, x, i);
    var j := if i <= k then i else i - 1;
    HoldsPlace(m, h, q, j);
    HoldsPlace(m, h, q, k);
    Fresh(h, q, x, j);
    Fresh(h, q, x, k);
    if j < k { SlotsDiffer(h, q, j, k); }
    if k < j { SlotsDiffer(h, q, k, j); }
  }

  lemma Fresh(h: nat, q: seq<Elem>, x: Elem, i: nat)
    requires x !in q && i <= |q|
    ensures Slot(h, q, i) != Entry(x) && Back(h, q, i) != Entry(x)
  {}

  lemma RemovedAt(h: nat, q: seq<Elem>, k: nat, i: nat)
    requires k < |q| && i < |q|
    ensures var q' := Removed(q, k);
            && |q'| == |q| - 1
            && At(q', i) == (if i < k then At(q, i) else At(q, i + 1))
            && Back(h, q', i) == (if i < k then Back(h, q, i) else Back(h, q, i + 1))
            && Slot(h, q', i) == if i <= k then Slot(h, q, i) else Slot(h, q, i + 1)
  {}

  /** Taking the element at position `k` out. */
  lemma HoldsRemoved(m: Memory, m': Memory, h: nat, q: seq<Elem>, k: nat)
    requires Holds(m, h, q) && k < |q| && NoDuplicates(q)
    requires m'.next == m.next[Slot(h, q, k) := At(q, k + 1)]
    requires m'.prev == m.prev[Back(h, q, k + 1) := Slot(h, q, k)]
    ensures Holds(m', h, Removed(q, k))
  {
    var q' := Removed(q, k);
    assert |q'| == |q| - 1;
    forall i: nat | i <= |q'| ensures HoldsAt(m', h, q', i) { RemovedPlace(m, m', h, q, k, i); }
    HoldsAll(m', h, q');
  }

  lemma RemovedPlace(m: Memory, m': Memory, h: nat, q: seq<Elem>, k: nat, i: nat)
    requires Holds(m, h, q) && k < |q| && NoDuplicates(q) && i <= |q| - 1 == |Removed(q, k)|
    requires m'.next == m.next[Slot(h, q, k) := At(q, k + 1)]
    requires m'.prev == m.prev[Back(h, q, k + 1) := Slot(h, q, k)]
    ensures HoldsAt(m', h, Removed(q, k), i)
  {
    hide Holds, Removed, NoDuplicates, Slot, Back, At;
    RemovedAt(h, q, k, i);
    var j := if i < k then i else i + 1;
    HoldsPlace(m, h, q, j);
    HoldsPlace(m, h, q, k);
    if j < k { SlotsDiffer(h, q, j, k); }
    if k < j { SlotsDiffer(h, q, k, j); }
    if j < k + 1 { SlotsDiffer(h, q, j, k + 1); }
    if k + 1 < j { SlotsDiffer(h, q, k + 1, j); }
  }

  lemma ConcatAt(h1: nat, h2: nat, q1: seq<Elem>, q2: seq<Elem>, i: nat)
    requires i <= |q1| + |q2| && q2 != []
    ensures var q := q1 + q2; var n := |q1|;
            && |q| == n + |q2|
            && At(q, i) == (if i < n then At(q1, i) else At(q2, i - n))
            && Slot(h1, q, i) == (if i <= n then Slot(h1, q1, i) else Slot(h2, q2, i - n))
            && Back(h1, q, i) == (if i < n then Back(h1, q1, i) else if i < |q| then Back(h2, q2, i - n) else Head(h1))
  {}

  /** Appending a queue to another. */
  lemma HoldsConcat(m: Memory, m': Memory, h1: nat, h2: nat, q1: seq<Elem>, q2: seq<Elem>)
    requires Holds(m, h1, q1) && Holds(m, h2, q2) && h1 != h2 && q2 != [] && NoDuplicates(q1) && NoDuplicates(q2)
    requires Apart(q1, q2)
    requires m'.next == m.next[Slot(h1, q1, |q1|) := Some(q2[0])][Head(h2) := None]
    requires m'.prev == m.prev[Entry(q2[0]) := Slot(h1, q1, |q1|)][Head(h1) := Slot(h2, q2, |q2|)][Head(h2) := Head(h2)]
    ensures Holds(m', h1, q1 + q2) && Holds(m', h2, [])
  {
    forall i: nat | i <= |q1 + q2| ensures HoldsAt(m', h1, q1 + q2, i) { ConcatPlace(m, m', h1, h2, q1, q2, i); }
    HoldsAll(m', h1, q1 + q2);
  }

  lemma ConcatPlace(m: Memory, m': Memory, h1: nat, h2: nat, q1: seq<Elem>, q2: seq<Elem>, i: nat)
    requires Holds(m, h1, q1) && Holds(m, h2, q2) && h1 != h2 && q2 != [] && NoDuplicates(q1) && NoDuplicates(q2)
    requires Apart(q1, q2)
    requires m'.next == m.next[Slot(h1, q1, |q1|) := Some(q2[0])][Head(h2) := None]
    requires m'.prev == m.prev[Entry(q2[0]) := Slot(h1, q1, |q1|)][Head(h1) := Slot(h2, q2, |q2|)][Head(h2) := Head(h2)]
    requires i <= |q1 + q2|
    ensures HoldsAt(m', h1, q1 + q2, i)
  {
    var n := |q1|;
    hide Holds, NoDuplicates, Slot, Back, At, Apart;
    ConcatAt(h1, h2, q1, q2, i);
    if i < n {
      HoldsPlace(m, h1, q1, i);
      SlotsDiffer(h1, q1, i, n);
      PlaceKinds(h1, h2, q1, q2, i, 0);
    } else {
      HoldsPlace(m, h2, q2, i - n);
      PlaceKinds(h1, h2, q1, q2, n, i - n);
      if i > n { SlotsDiffer(h2, q2, 0, i - n); }
    }
  }

  lemma PlaceKinds(h1: nat, h2: nat, q1: seq<Elem>, q2: seq<Elem>, i: nat, j: nat)
    requires i <= |q1| && j <= |q2| && h1 != h2 && Apart(q1, q2) && q2 != []
    ensures Slot(h1, q1, i) != Head(h2)
    ensures (i < |q1| ==> Back(h1, q1, i) != Head(h2) && Back(h1, q1, i) != Head(h1) && Back(h1, q1, i) != Entry(q2[0]))
    ensures j > 0 ==> Slot(h2, q2, j) != Head(h2) && Slot(h2, q2, j) != Slot(h1, q1, |q1|)
    ensures j < |q2| ==> Back(h2, q2, j) != Head(h2) && Back(h2, q2, j) != Head(h1)
    ensures Back(h2, q2, 0) == Entry(q2[0]) && At(q2, 0) == Some(q2[0]) && Back(h1, q1, |q1|) == Head(h1)
    ensures Back(h2, q2, |q2|) == Head(h2)
  {
    assert q1 != [] ==> q1[|q1| - 1] in q1;
    assert i < |q1| ==> q1[i] in q1;
  }

  // The other queues

  /** Only pairs of the given heads and elements have changed. */
  ghost predicate Only(m: Memory, m': Memory, heads: set<nat>, elems: seq<Elem>) {
    forall p: Pair :: (match p case Head(h) => h !in heads case Entry(e) => e !in elems) ==> SameAt(m, m', p)
  }

  ghost predicate SameAt(m: Memory, m': Memory, p: Pair) {
    && (p in m.next ==> p in m'.next && m'.next[p] == m.next[p])
    && (p in m.prev ==> p in m'.prev && m'.prev[p] == m.prev[p])
  }

  lemma OtherHolds(m: Memory, m': Memory, heads: set<nat>, elems: seq<Elem>, h: nat, q: seq<Elem>)
    requires Holds(m, h, q) && Only(m, m', heads, elems) && h !in heads && Apart(q, elems)
    ensures Holds(m', h, q)
  {
    forall i: nat | i <= |q| ensures HoldsAt(m', h, q, i) {
      HoldsPlace(m, h, q, i);
      assert SameAt(m, m', Slot(h, q, i)) && SameAt(m, m', Back(h, q, i));
    }
    HoldsAll(m', h, q);
  }

  // All queues

  lemma InsertedElems(q: seq<Elem>, k: nat, x: Elem)
    requires k <= |q|
    ensures forall y :: y in Inserted(q, k, x) <==> y == x || y in q
  {}

  /** The others hold no element of these. */
  ghost predicate Clear(c: Contents, heads: set<nat>, elems: seq<Elem>) {
    forall g :: g in c && g !in heads ==> Apart(c[g], elems)
  }

  lemma ApartBack(a: seq<Elem>, b: seq<Elem>, sub: seq<Elem>)
    requires Apart(a, b) && forall x :: x in sub ==> x in b
    ensures Apart(a, sub) && Apart(sub, a)
  {}

  /** Queue `h` is replaced, and the others are not touched. */
  lemma Replaced(m: Memory, m': Memory, c: Contents, h: nat, q: seq<Elem>, elems: seq<Elem>)
    requires Represents(m, c) && Only(m, m', {h}, elems) && Clear(c, {h}, elems)
    requires Holds(m', h, q) && NoDuplicates(q) && forall x :: x in q ==> x in elems
    ensures Represents(m', c[h := q])
  {
    hide Holds, NoDuplicates, Only, Apart;
    forall g | g in c && g != h ensures Holds(m', g, c[g]) && Apart(c[g], q) && Apart(q, c[g]) {
      OtherHolds(m, m', {h}, elems, g, c[g]);
      ApartBack(c[g], elems, q);
    }
  }

  lemma InsertedKeeps(m: Memory, m': Memory, c: Contents, h: nat, k: nat, x: Elem)
    requires Represents(m, c) && h in c && k <= |c[h]| && !Queued(c, x)
    requires m'.next == m.next[Entry(x) := At(c[h], k)][Slot(h, c[h], k) := Some(x)]
    requires m'.prev == m.prev[Entry(x) := Slot(h, c[h], k)][Back(h, c[h], k) := Entry(x)]
    ensures Represents(m', c[h := Inserted(c[h], k, x)])
  {
    var q := c[h];
    var q' := Inserted(q, k, x);
    assert x !in q && NoDuplicates(q) && Holds(m, h, q);
    ClearWith(c, h, x);
    hide Holds, NoDuplicates, Only, Apart, Clear, Inserted, Represents, Queued;
    HoldsInserted(m, m', h, q, k, x);
    InsertedElems(q, k, x);
    InsertedOnce(q, k, x);
    OnlyInserted(m, m', h, q, k, x);
    Replaced(m, m', c, h, q', q + [x]);
  }

  lemma OnlyInserted(m: Memory, m': Memory, h: nat, q: seq<Elem>, k: nat, x: Elem)
    requires k <= |q|
    requires m'.next == m.next[Entry(x) := At(q, k)][Slot(h, q, k) := Some(x)]
    requires m'.prev == m.prev[Entry(x) := Slot(h, q, k)][Back(h, q, k) := Entry(x)]
    ensures Only(m, m', {h}, q + [x])
  {}

  /** Slots belong to the head or to an element. */
  lemma OwnSlot(h: nat, q: seq<Elem>, k: nat, elems: seq<Elem>)
    requires k <= |q| && forall x :: x in q ==> x in elems
    ensures var s := Slot(h, q, k); match s case Head(g) => g == h case Entry(e) => e in elems
    ensures var s := Back(h, q, k); match s case Head(g) => g == h case Entry(e) => e in elems
  {}

  lemma ClearWith(c: Contents, h: nat, x: Elem)
    requires Distinct(c) && h in c && !Queued(c, x)
    ensures Clear(c, {h}, c[h] + [x]) && Clear(c, {h}, c[h])
  {}

  lemma InsertedOnce(q: seq<Elem>, k: nat, x: Elem)
    requires NoDuplicates(q) && x !in q && k <= |q|
    ensures NoDuplicates(Inserted(q, k, x))
  {}

  lemma RemovedElems(q: seq<Elem>, k: nat)
    requires k < |q| && NoDuplicates(q)
    ensures NoDuplicates(Removed(q, k)) && forall x :: x in Removed(q, k) ==> x in q
  {}

  lemma OneQueue(m: Memory, c: Contents, h: nat)
    requires Represents(m, c) && h in c
    ensures NoDuplicates(c[h]) && Holds(m, h, c[h]) && Clear(c, {h}, c[h])
  {
    hide Holds, NoDuplicates, Apart;
  }

  lemma OnlyRemoved(m: Memory, m': Memory, h: nat, q: seq<Elem>, k: nat)
    requires k < |q|
    requires m'.next == m.next[Slot(h, q, k) := At(q, k + 1)]
    requires m'.prev == m.prev[Back(h, q, k + 1) := Slot(h, q, k)]
    ensures Only(m, m', {h}, q)
  {
    OwnSlot(h, q, k, q);
    OwnSlot(h, q, k + 1, q);
  }

  lemma RemovedKeeps(m: Memory, m': Memory, c: Contents, h: nat, k: nat)
    requires Represents(m, c) && h in c && k < |c[h]|
    requires m'.next == m.next[Slot(h, c[h], k) := At(c[h], k + 1)]
    requires m'.prev == m.prev[Back(h, c[h], k + 1) := Slot(h, c[h], k)]
    ensures Represents(m', c[h := Removed(c[h], k)])
  {
    hide Holds, NoDuplicates, Apart, Clear, Removed, Represents, Only, Slot, Back, At;
    var q := c[h];
    OneQueue(m, c, h);
    HoldsRemoved(m, m', h, q, k);
    RemovedElems(q, k);
    OnlyRemoved(m, m', h, q, k);
    Replaced(m, m', c, h, Removed(q, k), q);
  }

  lemma ConcatKeeps(m: Memory, m': Memory, c: Contents, h1: nat, h2: nat)
    requires Represents(m, c) && h1 in c && h2 in c && h1 != h2 && c[h2] != []
    requires m'.next == m.next[Slot(h1, c[h1], |c[h1]|) := Some(c[h2][0])][Head(h2) := None]
    requires var q1, q2 := c[h1], c[h2];
             m'.prev == m.prev[Entry(q2[0]) := Slot(h1, q1, |q1|)][Head(h1) := Slot(h2, q2, |q2|)][Head(h2) := Head(h2)]
    ensures Represents(m', c[h1 := c[h1] + c[h2]][h2 := []])
  {
    hide Holds, NoDuplicates, Apart, Only, Slot;
    var q1, q2 := c[h1], c[h2];
    HoldsConcat(m, m', h1, h2, q1, q2);
    ConcatOnce(q1, q2);
    OnlyConcat(m, m', h1, h2, q1, q2);
    forall g | g in c && g != h1 && g != h2 ensures Holds(m', g, c[g]) && Apart(c[g], q1 + q2) && Apart(q1 + q2, c[g]) {
      ApartBoth(c[g], q1, q2);
      OtherHolds(m, m', {h1, h2}, q1 + q2, g, c[g]);
    }
    ApartNone();
  }

  lemma ConcatOnce(q1: seq<Elem>, q2: seq<Elem>)
    requires NoDuplicates(q1) && NoDuplicates(q2) && Apart(q1, q2)
    ensures NoDuplicates(q1 + q2) && NoDuplicates([])
  {
    var q := q1 + q2;
    forall i, j | 0 <= i < j < |q| ensures q[i] != q[j] {
      assert i < |q1| <= j ==> q[i] in q1 && q[j] in q2;
    }
  }

  lemma OnlyConcat(m: Memory, m': Memory, h1: nat, h2: nat, q1: seq<Elem>, q2: seq<Elem>)
    requires q2 != []
    requires m'.next == m.next[Slot(h1, q1, |q1|) := Some(q2[0])][Head(h2) := None]
    requires m'.prev == m.prev[Entry(q2[0]) := Slot(h1, q1, |q1|)][Head(h1) := Slot(h2, q2, |q2|)][Head(h2) := Head(h2)]
    ensures Only(m, m', {h1, h2}, q1 + q2)
  {}

  lemma ApartBoth(a: seq<Elem>, q1: seq<Elem>, q2: seq<Elem>)
    requires Apart(a, q1) && Apart(a, q2)
    ensures Apart(a, q1 + q2) && Apart(q1 + q2, a)
  {}

  lemma ApartNone()
    ensures forall a :: Apart(a, []) && Apart([], a)
  {}

  lemma InitKeeps(m: Memory, m': Memory, c: Contents, h: nat)
    requires Represents(m, c)
    requires m'.next == m.next[Head(h) := None] && m'.prev == m.prev[Head(h) := Head(h)]
    ensures Represents(m', c[h := []])
  {}

  /** What can be read at place `k`. */
  lemma Place(m: Memory, h: nat, q: seq<Elem>, k: nat)
    requires Holds(m, h, q) && k <= |q|
    ensures var s := Slot(h, q, k); var b := Back(h, q, k);
            && s in m.next && m.next[s] == At(q, k) && b in m.prev && m.prev[b] == s
            && b == (match At(q, k) case Some(y) => Entry(y) case None => Head(h))
    ensures Slot(h, q, 0) == Head(h) && Slot(h, q, k) == if k == 0 then Head(h) else Entry(q[k - 1])
    ensures k < |q| ==> At(q, k) == Some(q[k])
  {}

  lemma ReadPlace(m: Memory, c: Contents, h: nat, k: nat)
    requires Represents(m, c) && h in c && k <= |c[h]|
    ensures var q := c[h]; var s := Slot(h, q, k); var b := Back(h, q, k);
            && NoDuplicates(q) && s in m.next && m.next[s] == At(q, k) && b in m.prev && m.prev[b] == s
            && b == (match At(q, k) case Some(y) => Entry(y) case None => Head(h))
            && s == (if k == 0 then Head(h) else Entry(q[k - 1]))
            && At(q, k) == if k < |q| then Some(q[k]) else None
  {
    Place(m, h, c[h], k);
  }

  /** Updates of different keys can be swapped. */
  lemma Swap<K, V>(m: map<K, V>, a: K, v: V, b: K, w: V)
    requires a != b
    ensures m[a := v][b := w] == m[b := w][a := v]
  {}

  /** A slot looked at as a head: the pointer its second word leads to is the one to the element that
      holds the slot, or to nothing if the head holds it. */
  lemma Before(m: Memory, c: Contents, h: nat, k: nat)
    requires Represents(m, c) && h in c && k <= |c[h]|
    ensures var s := Slot(h, c[h], k);
            s in m.prev && m.prev[s] in m.next && m.next[m.prev[s]] == if k == 0 then None else Some(c[h][k - 1])
  {}

  class Queues {
    var next: map<Pair, Option<Elem>>
    var prev: map<Pair, Pair>
    ghost var contents: Contents

    function M(): Memory
      reads this
    {
      Memory(next, prev)
    }

    ghost predicate Valid()
      reads this
    {
      Represents(M(), contents)
    }

    constructor ()
      ensures Valid() && contents == map[]
    {
      next, prev, contents := map[], map[], map[];
    }

    method Initialize(h: nat)
      requires Valid()
      modifies this
      ensures Valid() && contents == After(old(contents), Init(h))
    {
      InitKeeps(M(), Memory(next[Head(h) := None], prev[Head(h) := Head(h)]), contents, h);
      next := next[Head(h) := None];
      prev := prev[Head(h) := Head(h)];
      contents := contents[h := []];
    }

    method PutFirst(h: nat, x: Elem)
      requires Valid() && Allowed(contents, InsertHead(h, x))
      modifies this
      ensures Valid() && contents == After(old(contents), InsertHead(h, x))
    {
      hide Represents, Queued, IndexOf, Holds, Slot, Back, At, Inserted, Removed, NoDuplicates;
      ghost var m, c, q := M(), contents, contents[h];
      ReadPlace(m, c, h, 0);
      FreshAll(c, h, x);
      Fresh(h, q, x, 0);
      InsertedEnds(q, x);
      next := next[Entry(x) := next[Head(h)]];
      if next[Entry(x)].Some? {
        prev := prev[Entry(next[Entry(x)].value) := Entry(x)];
      } else {
        prev := prev[Head(h) := Entry(x)];
      }
      next := next[Head(h) := Some(x)];
      prev := prev[Entry(x) := Head(h)];
      Swap(m.prev, Back(h, q, 0), Entry(x), Entry(x), Head(h));
      InsertedKeeps(m, M(), c, h, 0, x);
      contents := contents[h := [x] + q];
    }

    method PutLast(h: nat, x: Elem)
      requires Valid() && Allowed(contents, InsertTail(h, x))
      modifies this
      ensures Valid() && contents == After(old(contents), InsertTail(h, x))
    {
      hide Represents, Queued, IndexOf, Holds, Slot, Back, At, Inserted, Removed, NoDuplicates;
      ghost var m, c, q := M(), contents, contents[h];
      ReadPlace(m, c, h, |q|);
      FreshAll(c, h, x);
      Fresh(h, q, x, |q|);
      InsertedEnds(q, x);
      next := next[Entry(x) := None];
      prev := prev[Entry(x) := prev[Head(h)]];
      next := next[prev[Head(h)] := Some(x)];
      prev := prev[Head(h) := Entry(x)];
      InsertedKeeps(m, M(), c, h, |q|, x);
      contents := contents[h := q + [x]];
    }

    method PutAfter(h: nat, y: Elem, x: Elem)
      requires Valid() && Allowed(contents, InsertAfter(h, y, x))
      modifies this
      ensures Valid() && contents == After(old(contents), InsertAfter(h, y, x))
    {
      hide Represents, Queued, IndexOf, Holds, Slot, Back, At, Inserted, Removed, NoDuplicates;
      ghost var m, c, q := M(), contents, contents[h];
      ghost var k := IndexOf(q, y) + 1;
      ReadPlace(m, c, h, k);
      FreshAll(c, h, x);
      Fresh(h, q, x, k);
      next := next[Entry(x) := next[Entry(y)]];
      if next[Entry(x)].Some? {
        prev := prev[Entry(next[Entry(x)].value) := Entry(x)];
      } else {
        prev := prev[Head(h) := Entry(x)];
      }
      next := next[Entry(y) := Some(x)];
      prev := prev[Entry(x) := Entry(y)];
      Swap(m.prev, Back(h, q, k), Entry(x), Entry(x), Entry(y));
      InsertedKeeps(m, M(), c, h, k, x);
      contents := contents[h := Inserted(q, k, x)];
    }

    method PutBefore(y: Elem, x: Elem, ghost h: nat)
      requires Valid() && Allowed(contents, InsertBefore(h, y, x))
      modifies this
      ensures Valid() && contents == After(old(contents), InsertBefore(h, y, x))
    {
      hide Represents, Queued, IndexOf, Holds, Slot, Back, At, Inserted, Removed, NoDuplicates;
      ghost var m, c, q := M(), contents, contents[h];
      ghost var k := IndexOf(q, y);
      ReadPlace(m, c, h, k);
      FreshAll(c, h, x);
      Fresh(h, q, x, k);
      prev := prev[Entry(x) := prev[Entry(y)]];
      next := next[Entry(x) := Some(y)];
      next := next[prev[Entry(y)] := Some(x)];
      prev := prev[Entry(y) := Entry(x)];
      InsertedKeeps(m, M(), c, h, k, x);
      contents := contents[h := Inserted(q, k, x)];
    }

    method TakeOut(h: nat, x: Elem)
      requires Valid() && Allowed(contents, Remove(h, x))
      modifies this
      ensures Valid() && contents == After(old(contents), Remove(h, x))
    {
      hide Represents, Queued, IndexOf, Holds, Slot, Back, At, Inserted, Removed, NoDuplicates;
      ghost var m, c, q := M(), contents, contents[h];
      ghost var k := IndexOf(q, x);
      ReadPlace(m, c, h, k);
      ReadPlace(m, c, h, k + 1);
      SlotsDiffer(h, q, k, k + 1);
      if next[Entry(x)].Some? {
        prev := prev[Entry(next[Entry(x)].value) := prev[Entry(x)]];
      } else {
        prev := prev[Head(h) := prev[Entry(x)]];
      }
      next := next[prev[Entry(x)] := next[Entry(x)]];
      RemovedKeeps(m, M(), c, h, k);
      contents := contents[h := Removed(q, k)];
    }

    method Append(h: nat, h2: nat)
      requires Valid() && Allowed(contents, Concat(h, h2))
      modifies this
      ensures Valid() && contents == After(old(contents), Concat(h, h2))
    {
      hide Represents, Queued, IndexOf, Holds, Slot, Back, At;
      ghost var m, c, q1, q2 := M(), contents, contents[h], contents[h2];
      ReadPlace(m, c, h, |q1|);
      ReadPlace(m, c, h2, 0);
      ReadPlace(m, c, h2, |q2|);
      if next[Head(h2)].Some? {
        next := next[prev[Head(h)] := next[Head(h2)]];
        prev := prev[Entry(next[Head(h2)].value) := prev[Head(h)]];
        prev := prev[Head(h) := prev[Head(h2)]];
        next := next[Head(h2) := None];
        prev := prev[Head(h2) := Head(h2)];
        ConcatKeeps(m, M(), c, h, h2);
        contents := contents[h := q1 + q2][h2 := []];
      } else {
        assert q1 + q2 == q1 && contents[h := q1][h2 := []] == contents;
      }
    }

    /** TAILQ_LAST. */
    method Last(h: nat) returns (x: Option<Elem>)
      requires Valid() && h in contents
      ensures x == if contents[h] == [] then None else Some(contents[h][|contents[h]| - 1])
    {
      hide Represents, Holds;
      ReadPlace(M(), contents, h, |contents[h]|);
      Before(M(), contents, h, |contents[h]|);
      x := next[prev[prev[Head(h)]]];
    }

    /** TAILQ_PREV. */
    method Previous(y: Elem, ghost h: nat) returns (x: Option<Elem>)
      requires Valid() && h in contents && y in contents[h]
      ensures var k := IndexOf(contents[h], y); x == if k == 0 then None else Some(contents[h][k - 1])
    {
      hide Represents, Holds;
      ghost var k := IndexOf(contents[h], y);
      ReadPlace(M(), contents, h, k);
      Before(M(), contents, h, k);
      x := next[prev[prev[Entry(y)]]];
    }

    /** TAILQ_FOREACH. */
    method Traverse(h: nat) returns (visited: seq<Elem>)
      requires Valid() && h in contents
      ensures visited == contents[h]
    {
      hide Represents, Holds;
      ghost var q := contents[h];
      ReadPlace(M(), contents, h, 0);
      visited := [];
      var x := next[Head(h)];
      while x.Some?
        invariant |visited| <= |q| && visited == q[..|visited|] && x == At(q, |visited|)
        decreases |q| - |visited|
      {
        ReadPlace(M(), contents, h, |visited| + 1);
        visited := visited + [x.value];
        x := next[Entry(x.value)];
      }
    }

    /** TAILQ_FOREACH_REVERSE. */
    method TraverseBack(h: nat) returns (visited: seq<Elem>)
      requires Valid() && h in contents
      ensures |visited| == |contents[h]|
      ensures forall i :: 0 <= i < |visited| ==> visited[i] == contents[h][|contents[h]| - 1 - i]
    {
      hide Represents, Holds;
      ghost var q := contents[h];
      visited := [];
      var x := Last(h);
      ghost var k := |q|;
      while x.Some?
        invariant 0 <= k <= |q| && |visited| == |q| - k && x == if k == 0 then None else Some(q[k - 1])
        invariant forall i :: 0 <= i < |visited| ==> visited[i] == q[|q| - 1 - i]
        decreases k
      {
        ReadPlace(M(), contents, h, k - 1);
        Before(M(), contents, h, k - 1);
        visited := visited + [x.value];
        x := next[prev[prev[Entry(x.value)]]];
        k := k - 1;
      }
    }

    method Apply(op: Op)
      requires Valid() && Allowed(contents, op)
      modifies this
      ensures Valid() && contents == After(old(contents), op)
    {
      hide Represents;
      match op
      case Init(h) => Initialize(h);
      case InsertHead(h, x) => PutFirst(h, x);
      case InsertTail(h, x) => PutLast(h, x);
      case InsertAfter(h, y, x) => PutAfter(h, y, x);
      case InsertBefore(h, y, x) => PutBefore(y, x, h);
      case Remove(h, x) => TakeOut(h, x);
      case Concat(h, h2) => Append(h, h2);
    }

    /** Any sequence of operations does to the links what it does to the sequences. */
    method Run(ops: seq<Op>)
      requires Valid() && AllAllowed(contents, ops)
      modifies this
      ensures Valid() && contents == AfterAll(old(contents), ops)
    {
      hide Represents, Allowed, After;
      var i := 0;
      assert ops[0..] == ops;
      while i < |ops|
        invariant 0 <= i <= |ops| && Valid() && AllAllowed(contents, ops[i..])
        invariant AfterAll(old(contents), ops) == AfterAll(contents, ops[i..])
      {
        assert ops[i..][1..] == ops[i + 1..];
        Apply(ops[i]);
        i := i + 1;
      }
    }
  }

  lemma InsertedEnds(q: seq<Elem>, x: Elem)
    ensures Inserted(q, 0, x) == [x] + q && Inserted(q, |q|, x) == q + [x]
  {}

  lemma FreshAll(c: Contents, h: nat, x: Elem)
    requires h in c && !Queued(c, x)
    ensures x !in c[h]
  {}
}
