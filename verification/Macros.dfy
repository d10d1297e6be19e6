/** Preprocessor macros: nested and recursive expansion, with a counter per variable that stops
    runaway recursion. */
module KconfigMacros {
  import opened Basics

  /** The variables with their unexpanded values. `number` is int() on a string. `outside` gives the
      value of everything that is no variable: built-in functions, environment variables, or
      nothing; `None` there is an error. */
  datatype Env = Env(
    vars: map<string, string>,
    number: string -> Option<int>,
    outside: seq<string> -> Option<string>)

  /** How many expansions of each variable are under way. */
  type Counters = map<string, nat>

  function Count(n: Counters, v: string): nat { if v in n then n[v] else 0 }

  const LIMIT := 101

  /** The expansions each variable has left before it is found to be stuck. */
  ghost function Budget(env: Env, n: Counters): set<(string, nat)> {
    set v, k | v in env.vars && Count(n, v) <= k < LIMIT :: (v, k)
  }

  /** Entering a variable uses up budget. */
  lemma BudgetShrinks(env: Env, n: Counters, v: string)
    requires v in env.vars && Count(n, v) < LIMIT
    ensures Budget(env, n[v := Count(n, v) + 1]) < Budget(env, n)
    ensures |Budget(env, n[v := Count(n, v) + 1])| < |Budget(env, n)|
  {
    var n' := n[v := Count(n, v) + 1];
    assert forall x :: Count(n', x) == if x == v then Count(n, v) + 1 else Count(n, x);
    var (a, b) := (Budget(env, n'), Budget(env, n));
    assert (v, Count(n, v)) in b && (v, Count(n, v)) !in a;
    forall p | p in a ensures p in b {}
    ProperSubsetSize(a, b);
  }

  // Finding what is special

  predicate MacroAt(s: string, i: nat) { i + 1 < |s| && s[i] == '$' && s[i + 1] == '(' }

  /** The next macro call at or after `i`, or the length. */
  function NextMacro(s: string, i: nat): (k: nat)
    requires i <= |s|
    ensures i <= k <= |s| && (k < |s| ==> MacroAt(s, k)) && forall j :: i <= j < k ==> !MacroAt(s, j)
    decreases |s| - i
  {
    if i == |s| || MacroAt(s, i) then i else NextMacro(s, i + 1)
  }

  predicate SpecialAt(s: string, i: nat) {
    i < |s| && (s[i] == '(' || s[i] == ')' || s[i] == ',' || MacroAt(s, i))
  }

  function NextSpecial(s: string, i: nat): (k: nat)
    requires i <= |s|
    ensures i <= k <= |s| && (k < |s| ==> SpecialAt(s, k)) && forall j :: i <= j < k ==> !SpecialAt(s, j)
    decreases |s| - i
  {
    if i == |s| || SpecialAt(s, i) then i else NextSpecial(s, i + 1)
  }

  // Expansion

  /** args[k] with negative indices counting from the end. */
  function ArgAt(args: seq<string>, k: int): Option<string> {
    if 0 <= k < |args| then Some(args[k])
    else if -|args| <= k < 0 then Some(args[|args| + k])
    else None
  }

  /** _fn_val(): the value of the function or variable args[0]. */
  function FnVal(env: Env, n: Counters, args: seq<string>): Option<string>
    requires args != []
    decreases |Budget(env, n)|, 0, 0
  {
    var fn := args[0];
    if fn !in env.vars then env.outside(args)
    else if (if |args| == 1 then Count(n, fn) != 0 else Count(n, fn) > 100) then None
    else
      BudgetShrinks(env, n, fn);
      ExpandFrom(env, n[fn := Count(n, fn) + 1], env.vars[fn], 0, args)
  }

  /** _expand_whole() from `i` on. */
  function ExpandFrom(env: Env, n: Counters, s: string, i: nat, args: seq<string>): Option<string>
    requires i <= |s|
    decreases |Budget(env, n)|, |s| - i + 1, 2
  {
    var k := NextMacro(s, i);
    if k == |s| then Some(s)
    else
      var (s', i') :- ExpandMacro(env, n, s, k, args);
      ExpandFrom(env, n, s', i', args)
  }

  /** _expand_macro(): the macro call at `i` is replaced by its value; the result is the new text and
      the place after the value. */
  function ExpandMacro(env: Env, n: Counters, s: string, i: nat, args: seq<string>): (r: Option<(string, nat)>)
    requires MacroAt(s, i)
    ensures r.Some? ==> i <= r.value.1 <= |r.value.0| && |r.value.0| - r.value.1 < |s| - i
    decreases |Budget(env, n)|, |s| - i, 1
  {
    Scan(env, n, s, i, i + 2, i + 2, [], 0, args)
  }

  /** The scan for the end of the macro call that starts at `start`, from `i` on: `argStart` is where
      the current argument starts, `newArgs` holds the arguments before it. */
  function Scan(env: Env, n: Counters, s: string, start: nat, i: nat, argStart: nat, newArgs: seq<string>, nesting: nat,
                args: seq<string>): (r: Option<(string, nat)>)
    requires start < argStart <= i <= |s|
    ensures r.Some? ==> start <= r.value.1 <= |r.value.0| && |r.value.0| - r.value.1 < |s| - i
    decreases |Budget(env, n)|, |s| - i + 1, 0
  {
    var k := NextSpecial(s, i);
    if k == |s| then None
    else if s[k] == '(' then Scan(env, n, s, start, k + 1, argStart, newArgs, nesting + 1, args)
    else if s[k] == ')' then
      if nesting > 0 then Scan(env, n, s, start, k + 1, argStart, newArgs, nesting - 1, args)
      else
        var val :- CallVal(env, n, newArgs + [s[argStart..k]], args);
        Some((s[..start] + val + s[k + 1..], start + |val|))
    else if s[k] == ',' then
      if nesting > 0 then Scan(env, n, s, start, k + 1, argStart, newArgs, nesting, args)
      else Scan(env, n, s, start, k + 1, k + 1, newArgs + [s[argStart..k]], nesting, args)
    else
      var (s', i') :- ExpandMacro(env, n, s, k, args);
      Scan(env, n, s', start, i', argStart, newArgs, nesting, args)
  }

  /** $(1) is the first argument of the call being expanded, and so on; anything else is a call. */
  function CallVal(env: Env, n: Counters, newArgs: seq<string>, args: seq<string>): Option<string>
    requires newArgs != []
    decreases |Budget(env, n)|, 0, 1
  {
    var k := env.number(newArgs[0]);
    var arg := if k.Some? then ArgAt(args, k.value) else None;
    if arg.Some? then arg else FnVal(env, n, newArgs)
  }

  /** The character at `k` only moves the scan on. */
  predicate Moves(s: string, k: nat, nesting: nat) {
    k < |s| && (s[k] == '(' || s[k] == ',' || (s[k] == ')' && nesting > 0))
  }

  /** Where the current argument starts after that character. */
  function ArgStartAfter(s: string, k: nat, argStart: nat, nesting: nat): (r: nat)
    requires Moves(s, k, nesting) && argStart <= k
    ensures argStart <= r <= k + 1
  {
    if s[k] == ',' && nesting == 0 then k + 1 else argStart
  }

  /** The arguments before it. */
  function ArgsAfter(s: string, k: nat, argStart: nat, newArgs: seq<string>, nesting: nat): seq<string>
    requires Moves(s, k, nesting) && argStart <= k
  {
    if s[k] == ',' && nesting == 0 then newArgs + [s[argStart..k]] else newArgs
  }

  function NestingAfter(s: string, k: nat, nesting: nat): nat
    requires Moves(s, k, nesting)
  {
    if s[k] == '(' then nesting + 1 else if s[k] == ')' then nesting - 1 else nesting
  }

  lemma ScanMoves(env: Env, n: Counters, s: string, start: nat, i: nat, argStart: nat, newArgs: seq<string>,
                  nesting: nat, args: seq<string>)
    requires start < argStart <= i <= |s| && Moves(s, NextSpecial(s, i), nesting)
    ensures var k := NextSpecial(s, i);
            Scan(env, n, s, start, i, argStart, newArgs, nesting, args) ==
            Scan(env, n, s, start, k + 1, ArgStartAfter(s, k, argStart, nesting),
                 ArgsAfter(s, k, argStart, newArgs, nesting), NestingAfter(s, k, nesting), args)
  {
    hide CallVal, ExpandMacro;
  }

  /** The call from `start` to `k` is replaced by its value. */
  function Spliced(s: string, start: nat, k: nat, val: Option<string>): Option<(string, nat)>
    requires start <= k < |s|
  {
    if val.None? then None else Some((s[..start] + val.value + s[k + 1..], start + |val.value|))
  }

  lemma ScanStops(env: Env, n: Counters, s: string, start: nat, i: nat, argStart: nat, newArgs: seq<string>,
                  nesting: nat, args: seq<string>)
    requires start < argStart <= i <= |s| && !Moves(s, NextSpecial(s, i), nesting)
    ensures var k := NextSpecial(s, i);
            Scan(env, n, s, start, i, argStart, newArgs, nesting, args) ==
            if k == |s| then None
            else if s[k] == ')' then
              Spliced(s, start, k, CallVal(env, n, newArgs + [s[argStart..k]], args))
            else
              var r := ExpandMacro(env, n, s, k, args);
              if r.None? then None else Scan(env, n, r.value.0, start, r.value.1, argStart, newArgs, nesting, args)
  {
    hide CallVal, ExpandMacro;
  }

  /** A call that expands is closed. */
  lemma ScanGoesOn(env: Env, n: Counters, s: string, start: nat, i: nat, argStart: nat, newArgs: seq<string>,
                   nesting: nat, args: seq<string>)
    requires start < argStart <= i <= |s| && Scan(env, n, s, start, i, argStart, newArgs, nesting, args).Some?
    ensures NextSpecial(s, i) < |s|
  {}

  // Counters

  /** Fewer expansions are under way. */
  ghost predicate Fewer(n: Counters, n': Counters) {
    forall v :: Count(n', v) <= Count(n, v)
  }

  // The counters only decide whether there is a result, never which: what can be expanded in the
  // middle of other expansions expands to the same text outside them.

  lemma {:induction false} FnValFewer(env: Env, n: Counters, n': Counters, args: seq<string>)
    requires args != [] && Fewer(n, n') && FnVal(env, n, args).Some?
    ensures FnVal(env, n', args) == FnVal(env, n, args)
    decreases |Budget(env, n)|, 0, 0
  {
    var fn := args[0];
    if fn in env.vars {
      BudgetShrinks(env, n, fn);
      var m, m' := n[fn := Count(n, fn) + 1], n'[fn := Count(n', fn) + 1];
      assert Fewer(m, m') by {
        forall v ensures Count(m', v) <= Count(m, v) { assert Count(n', v) <= Count(n, v); }
      }
      ExpandFromFewer(env, m, m', env.vars[fn], 0, args);
    }
  }

  lemma {:induction false} ExpandFromFewer(env: Env, n: Counters, n': Counters, s: string, i: nat, args: seq<string>)
    requires i <= |s| && Fewer(n, n') && ExpandFrom(env, n, s, i, args).Some?
    ensures ExpandFrom(env, n', s, i, args) == ExpandFrom(env, n, s, i, args)
    decreases |Budget(env, n)|, |s| - i + 1, 2
  {
    var k := NextMacro(s, i);
    if k < |s| {
      var (s', i') := ExpandMacro(env, n, s, k, args).value;
      ExpandMacroFewer(env, n, n', s, k, args);
      ExpandFromFewer(env, n, n', s', i', args);
    }
  }

  lemma {:induction false} ExpandMacroFewer(env: Env, n: Counters, n': Counters, s: string, i: nat, args: seq<string>)
    requires MacroAt(s, i) && Fewer(n, n') && ExpandMacro(env, n, s, i, args).Some?
    ensures ExpandMacro(env, n', s, i, args) == ExpandMacro(env, n, s, i, args)
    decreases |Budget(env, n)|, |s| - i, 1
  {
    ScanFewer(env, n, n', s, i, i + 2, i + 2, [], 0, args);
  }

  lemma {:induction false} ScanFewer(env: Env, n: Counters, n': Counters, s: string, start: nat, i: nat, argStart: nat,
                                     newArgs: seq<string>, nesting: nat, args: seq<string>)
    requires start < argStart <= i <= |s| && Fewer(n, n')
    requires Scan(env, n, s, start, i, argStart, newArgs, nesting, args).Some?
    ensures Scan(env, n', s, start, i, argStart, newArgs, nesting, args) ==
            Scan(env, n, s, start, i, argStart, newArgs, nesting, args)
    decreases |Budget(env, n)|, |s| - i + 1, 1
  {
    hide Fewer, Budget, Scan;
    ScanGoesOn(env, n, s, start, i, argStart, newArgs, nesting, args);
    var k := NextSpecial(s, i);
    if Moves(s, k, nesting) {
      PlainScanFewer(env, n, n', s, start, i, argStart, newArgs, nesting, args);
    } else if s[k] == ')' {
      EndScanFewer(env, n, n', s, start, i, argStart, newArgs, nesting, args);
    } else {
      NestedScanFewer(env, n, n', s, start, i, argStart, newArgs, nesting, args);
    }
  }

  /** The case of a character that only moves the scan on. */
  lemma {:induction false} PlainScanFewer(env: Env, n: Counters, n': Counters, s: string, start: nat, i: nat,
                                          argStart: nat,
                                     newArgs: seq<string>, nesting: nat, args: seq<string>)
    requires start < argStart <= i <= |s| && Fewer(n, n')
    requires Moves(s, NextSpecial(s, i), nesting)
    requires Scan(env, n, s, start, i, argStart, newArgs, nesting, args).Some?
    ensures Scan(env, n', s, start, i, argStart, newArgs, nesting, args) ==
            Scan(env, n, s, start, i, argStart, newArgs, nesting, args)
    decreases |Budget(env, n)|, |s| - i + 1, 0
  {
    hide Fewer, Budget, Scan;
    var k := NextSpecial(s, i);
    var argStart' := ArgStartAfter(s, k, argStart, nesting);
    var newArgs', nesting' := ArgsAfter(s, k, argStart, newArgs, nesting), NestingAfter(s, k, nesting);
    ScanMoves(env, n, s, start, i, argStart, newArgs, nesting, args);
    ScanMoves(env, n', s, start, i, argStart, newArgs, nesting, args);
    ScanFewer(env, n, n', s, start, k + 1, argStart', newArgs', nesting', args);
  }

  /** The case of the end of the macro call. */
  lemma {:induction false} EndScanFewer(env: Env, n: Counters, n': Counters, s: string, start: nat, i: nat,
                                        argStart: nat,
                                     newArgs: seq<string>, nesting: nat, args: seq<string>)
    requires start < argStart <= i <= |s| && Fewer(n, n')
    requires var k := NextSpecial(s, i); k < |s| && s[k] == ')' && nesting == 0
    requires Scan(env, n, s, start, i, argStart, newArgs, nesting, args).Some?
    ensures Scan(env, n', s, start, i, argStart, newArgs, nesting, args) ==
            Scan(env, n, s, start, i, argStart, newArgs, nesting, args)
    decreases |Budget(env, n)|, |s| - i + 1, 0
  {
    hide Fewer, Budget;
    CallValFewer(env, n, n', newArgs + [s[argStart..NextSpecial(s, i)]], args);
  }

  /** The case of a macro call within the macro call. */
  lemma {:induction false} NestedScanFewer(env: Env, n: Counters, n': Counters, s: string, start: nat, i: nat,
                                           argStart: nat,
                                     newArgs: seq<string>, nesting: nat, args: seq<string>)
    requires start < argStart <= i <= |s| && Fewer(n, n')
    requires var k := NextSpecial(s, i); k < |s| && s[k] == '$'
    requires Scan(env, n, s, start, i, argStart, newArgs, nesting, args).Some?
    ensures Scan(env, n', s, start, i, argStart, newArgs, nesting, args) ==
            Scan(env, n, s, start, i, argStart, newArgs, nesting, args)
    decreases |Budget(env, n)|, |s| - i + 1, 0
  {
    hide Fewer, Budget;
    var k := NextSpecial(s, i);
    var (s', i') := ExpandMacro(env, n, s, k, args).value;
    ExpandMacroFewer(env, n, n', s, k, args);
    ScanFewer(env, n, n', s', start, i', argStart, newArgs, nesting, args);
  }

  lemma {:induction false} CallValFewer(env: Env, n: Counters, n': Counters, newArgs: seq<string>, args: seq<string>)
    requires newArgs != [] && Fewer(n, n') && CallVal(env, n, newArgs, args).Some?
    ensures CallVal(env, n', newArgs, args) == CallVal(env, n, newArgs, args)
    decreases |Budget(env, n)|, 0, 1
  {
    var k := env.number(newArgs[0]);
    if !(k.Some? && ArgAt(args, k.value).Some?) {
      FnValFewer(env, n, n', newArgs);
    }
  }

  // The code, with the counters as fields

  class Preprocessor {
    const env: Env
    var expansions: Counters

    constructor (e: Env)
      ensures env == e && expansions == map[]
    {
      env := e;
      expansions := map[];
    }

    /** The counters are all where they were. */
    ghost predicate Restored(n: Counters)
      reads this
    {
      SameCounts(n, expansions)
    }

    method FnValOf(args: seq<string>) returns (r: Option<string>)
      requires args != []
      modifies this
      ensures r == FnVal(env, old(expansions), args)
      ensures r.Some? ==> Restored(old(expansions))
      decreases |Budget(env, expansions)|, 0, 0
    {
      var fn := args[0];
      if fn !in env.vars { return env.outside(args); }
      if |args| == 1 {
        if Count(expansions, fn) != 0 { return None; }
      } else if Count(expansions, fn) > 100 { return None; }
      BudgetShrinks(env, expansions, fn);
      expansions := expansions[fn := Count(expansions, fn) + 1];
      ghost var entered := expansions;
      r := ExpandWhole(env.vars[fn], args);
      if r.None? { return; }
      assert Count(expansions, fn) == Count(entered, fn) >= 1;
      expansions := expansions[fn := Count(expansions, fn) - 1];
      forall v ensures Count(expansions, v) == Count(old(expansions), v) {
        if v != fn { assert Count(entered, v) == Count(old(expansions), v); }
      }
    }

    method ExpandWhole(text: string, args: seq<string>) returns (r: Option<string>)
      modifies this
      ensures r == ExpandFrom(env, old(expansions), text, 0, args)
      ensures r.Some? ==> Restored(old(expansions))
      decreases |Budget(env, expansions)|, |text| + 1, 2
    {
      var s, i: nat := text, 0;
      while true
        invariant i <= |s| && |s| - i <= |text| && Restored(old(expansions))
        invariant ExpandFrom(env, old(expansions), text, 0, args) == ExpandFrom(env, old(expansions), s, i, args)
        decreases |s| - i
      {
        i := NextMacro(s, i);
        if i == |s| { return Some(s); }
        SameBudget(env, old(expansions), expansions);
        SameExpansion(env, old(expansions), expansions, s, i, args);
        var step := ExpandOne(s, i, args);
        if step.None? { return None; }
        s, i := step.value.0, step.value.1;
      }
    }

    method ExpandOne(text: string, start: nat, args: seq<string>) returns (r: Option<(string, nat)>)
      requires MacroAt(text, start)
      modifies this
      ensures r == ExpandMacro(env, old(expansions), text, start, args)
      ensures r.Some? ==> Restored(old(expansions))
      decreases |Budget(env, expansions)|, |text| - start, 1
    {
      ghost var n := expansions;
      hide ExpandMacro, CallVal, Budget, SameCounts, Spliced, Stands;
      StillSame(n, n, n);
      var s, i, argStart, newArgs := text, start + 2, start + 2, [];
      var nesting: nat := 0;
      ghost var goal := ExpandMacro(env, n, text, start, args);
      StandsFirst(env, n, text, start, args);
      while true
        invariant start < argStart <= i <= |s| && |s| - i < |text| - start
        invariant Restored(n) && Stands(env, n, goal, s, start, i, argStart, newArgs, nesting, args)
        decreases |s| - i
      {
        ghost var m := expansions;
        var k := NextSpecial(s, i);
        if k == |s| {
          StandsOpen(env, n, goal, s, start, i, argStart, newArgs, nesting, args);
          return None;
        }
        if s[k] == '(' {
          StandsMoved(env, n, goal, s, start, i, argStart, newArgs, nesting, args);
          nesting, i := nesting + 1, k + 1;
        } else if s[k] == ')' {
          if nesting > 0 {
            StandsMoved(env, n, goal, s, start, i, argStart, newArgs, nesting, args);
            nesting, i := nesting - 1, k + 1;
          } else {
            StandsEnd(env, n, goal, s, start, i, argStart, newArgs, args);
            newArgs := newArgs + [s[argStart..k]];
            SameBudget(env, n, m);
            SameCall(env, n, m, newArgs, args);
            r := EndCall(s, start, k, newArgs, args);
            StillSame(n, m, expansions);
            return;
          }
        } else if s[k] == ',' {
          StandsMoved(env, n, goal, s, start, i, argStart, newArgs, nesting, args);
          i := k + 1;
          if nesting == 0 { newArgs, argStart := newArgs + [s[argStart..k]], i; }
        } else {
          StandsNested(env, n, goal, s, start, i, argStart, newArgs, nesting, args);
          SameBudget(env, n, m);
          SameExpansion(env, n, m, s, k, args);
          var step := ExpandOne(s, k, args);
          if step.None? { return None; }
          StillSame(n, m, expansions);
          s, i := step.value.0, step.value.1;
        }
      }
    }

    /** The end of the call. */
    method EndCall(s: string, start: nat, k: nat, newArgs: seq<string>, args: seq<string>)
      returns (r: Option<(string, nat)>)
      requires start <= k < |s| && newArgs != []
      modifies this
      ensures r == Spliced(s, start, k, CallVal(env, old(expansions), newArgs, args))
      ensures r.Some? ==> Restored(old(expansions))
      decreases |Budget(env, expansions)|, 0, 2
    {
      var val := CallValOf(newArgs, args);
      if val.None? { return None; }
      r := Some((s[..start] + val.value + s[k + 1..], start + |val.value|));
    }

    method CallValOf(newArgs: seq<string>, args: seq<string>) returns (r: Option<string>)
      requires newArgs != []
      modifies this
      ensures r == CallVal(env, old(expansions), newArgs, args)
      ensures r.Some? ==> Restored(old(expansions))
      decreases |Budget(env, expansions)|, 0, 1
    {
      var k := env.number(newArgs[0]);
      var arg := if k.Some? then ArgAt(args, k.value) else None;
      if arg.Some? { return arg; }
      r := FnValOf(newArgs);
    }
  }

  /** The result is that of scanning on from here. */
  ghost predicate Stands(env: Env, n: Counters, goal: Option<(string, nat)>, s: string, start: nat, i: nat,
                         argStart: nat, newArgs: seq<string>, nesting: nat, args: seq<string>)
    requires start < argStart <= i <= |s|
  {
    goal == Scan(env, n, s, start, i, argStart, newArgs, nesting, args)
  }

  lemma StandsFirst(env: Env, n: Counters, s: string, start: nat, args: seq<string>)
    requires MacroAt(s, start)
    ensures Stands(env, n, ExpandMacro(env, n, s, start, args), s, start, start + 2, start + 2, [], 0, args)
  {}

  lemma StandsOpen(env: Env, n: Counters, goal: Option<(string, nat)>, s: string, start: nat, i: nat,
                   argStart: nat, newArgs: seq<string>, nesting: nat, args: seq<string>)
    requires start < argStart <= i <= |s| && Stands(env, n, goal, s, start, i, argStart, newArgs, nesting, args)
    requires NextSpecial(s, i) == |s|
    ensures goal == None
  {}

  lemma StandsMoved(env: Env, n: Counters, goal: Option<(string, nat)>, s: string, start: nat, i: nat,
                    argStart: nat, newArgs: seq<string>, nesting: nat, args: seq<string>)
    requires start < argStart <= i <= |s| && Stands(env, n, goal, s, start, i, argStart, newArgs, nesting, args)
    requires Moves(s, NextSpecial(s, i), nesting)
    ensures var k := NextSpecial(s, i);
            Stands(env, n, goal, s, start, k + 1, ArgStartAfter(s, k, argStart, nesting),
                   ArgsAfter(s, k, argStart, newArgs, nesting), NestingAfter(s, k, nesting), args)
  {
    hide Scan;
    ScanMoves(env, n, s, start, i, argStart, newArgs, nesting, args);
  }

  lemma StandsEnd(env: Env, n: Counters, goal: Option<(string, nat)>, s: string, start: nat, i: nat,
                  argStart: nat, newArgs: seq<string>, args: seq<string>)
    requires start < argStart <= i <= |s| && Stands(env, n, goal, s, start, i, argStart, newArgs, 0, args)
    requires NextSpecial(s, i) < |s| && s[NextSpecial(s, i)] == ')'
    ensures var k := NextSpecial(s, i);
            goal == Spliced(s, start, k, CallVal(env, n, newArgs + [s[argStart..k]], args))
  {
    hide Scan;
    ScanStops(env, n, s, start, i, argStart, newArgs, 0, args);
  }

  lemma StandsNested(env: Env, n: Counters, goal: Option<(string, nat)>, s: string, start: nat, i: nat,
                     argStart: nat, newArgs: seq<string>, nesting: nat, args: seq<string>)
    requires start < argStart <= i <= |s| && Stands(env, n, goal, s, start, i, argStart, newArgs, nesting, args)
    requires NextSpecial(s, i) < |s| && s[NextSpecial(s, i)] == '$'
    ensures var r := ExpandMacro(env, n, s, NextSpecial(s, i), args);
            if r.None? then goal == None
            else Stands(env, n, goal, r.value.0, start, r.value.1, argStart, newArgs, nesting, args)
  {
    hide Scan;
    ScanStops(env, n, s, start, i, argStart, newArgs, nesting, args);
  }

  ghost predicate SameCounts(n: Counters, n': Counters) { forall v :: Count(n', v) == Count(n, v) }

  lemma StillSame(n: Counters, n': Counters, n'': Counters)
    ensures SameCounts(n, n)
    ensures SameCounts(n, n') && SameCounts(n', n'') ==> SameCounts(n, n'')
  {}

  lemma SameBudget(env: Env, n: Counters, n': Counters)
    requires SameCounts(n, n')
    ensures Budget(env, n') == Budget(env, n)
  {}

  lemma SameExpansion(env: Env, n: Counters, n': Counters, s: string, i: nat, args: seq<string>)
    requires MacroAt(s, i) && SameCounts(n, n')
    ensures ExpandMacro(env, n', s, i, args) == ExpandMacro(env, n, s, i, args)
  {
    if ExpandMacro(env, n, s, i, args).Some? { ExpandMacroFewer(env, n, n', s, i, args); }
    if ExpandMacro(env, n', s, i, args).Some? { ExpandMacroFewer(env, n', n, s, i, args); }
  }

  lemma SameCall(env: Env, n: Counters, n': Counters, newArgs: seq<string>, args: seq<string>)
    requires newArgs != [] && SameCounts(n, n')
    ensures CallVal(env, n', newArgs, args) == CallVal(env, n, newArgs, args)
  {
    if CallVal(env, n, newArgs, args).Some? { CallValFewer(env, n, n', newArgs, args); }
    if CallVal(env, n', newArgs, args).Some? { CallValFewer(env, n', n, newArgs, args); }
  }
}
