/** What macro expansion computes, without rewriting text in place: a text is its plain parts with a value
    for each call; a call has arguments, which are texts themselves. The code agrees with this. */
module KconfigMacroMeaning {
  import opened Basics
  import opened KconfigMacros

  // Splitting a call into its arguments

  /** The arguments up to a closing parenthesis, and what follows it. */
  datatype Split = Split(parts: seq<string>, rest: string)

  /** The text after an opening one, `depth` more of which are open: commas outside all inner parentheses
      separate arguments, the matching closing one ends the last. */
  function Parts(t: string, depth: nat): (r: Option<Split>)
    ensures r.Some? ==> r.value.parts != []
  {
    if t == [] then None
    else if t[0] == ')' && depth == 0 then Some(Split([""], t[1..]))
    else if t[0] == ',' && depth == 0 then
      var more :- Parts(t[1..], 0);
      Some(Split([""] + more.parts, more.rest))
    else Prefixed(t[..1], Parts(t[1..], if t[0] == '(' then depth + 1 else if t[0] == ')' then depth - 1 else depth))
  }

  /** `w` belongs to the first argument. */
  function Prefixed(w: string, p: Option<Split>): (r: Option<Split>)
    requires p.Some? ==> p.value.parts != []
    ensures r.Some? ==> r.value.parts != []
  {
    if p.None? then None else Some(Split([w + p.value.parts[0]] + p.value.parts[1..], p.value.rest))
  }

  function Total(parts: seq<string>): nat {
    if parts == [] then 0 else |parts[0]| + Total(parts[1..])
  }

  lemma {:induction false} PartsShorter(t: string, depth: nat)
    ensures var p := Parts(t, depth); p.Some? ==> Total(p.value.parts) + |p.value.rest| < |t|
    decreases |t|
  {
    if t != [] {
      if t[0] == ')' && depth == 0 {
        assert Total([""]) == 0;
      } else if t[0] == ',' && depth == 0 {
        PartsShorter(t[1..], 0);
        if Parts(t[1..], 0).Some? { assert ([""] + Parts(t[1..], 0).value.parts)[1..] == Parts(t[1..], 0).value.parts; }
      } else {
        var e := if t[0] == '(' then depth + 1 else if t[0] == ')' then depth - 1 else depth;
        PartsShorter(t[1..], e);
        var p := Parts(t[1..], e);
        if p.Some? {
          var ps := p.value.parts;
          assert ([t[..1] + ps[0]] + ps[1..])[1..] == ps[1..];
        }
      }
    }
  }

  // Values

  /** The value of a text, given the arguments of the call it belongs to. */
  function Value(env: Env, n: Counters, t: string, args: seq<string>): Option<string>
    decreases |Budget(env, n)|, |t|, 0
  {
    var k := NextMacro(t, 0);
    if k == |t| then Some(t)
    else
      PartsShorter(t[k + 2..], 0);
      var call :- Parts(t[k + 2..], 0);
      var vals :- Values(env, n, call.parts, args);
      var v :- CallValue(env, n, vals, args);
      var more :- Value(env, n, call.rest, args);
      Some(t[..k] + v + more)
  }

  function Values(env: Env, n: Counters, ts: seq<string>, args: seq<string>): (r: Option<seq<string>>)
    ensures r.Some? ==> |r.value| == |ts|
    decreases |Budget(env, n)|, Total(ts), 1 + |ts|
  {
    if ts == [] then Some([])
    else
      var v :- Value(env, n, ts[0], args);
      var more :- Values(env, n, ts[1..], args);
      Some([v] + more)
  }

  /** The value of a call with arguments `vals`, the first of which names what is called: a number stands for
      an argument of the surrounding call, counted from the end if negative; a variable for the value of its
      text, with `vals` as arguments; anything else for what the outside makes of it. Recursion without
      arguments, or more than 100 deep, is an error. */
  function CallValue(env: Env, n: Counters, vals: seq<string>, args: seq<string>): Option<string>
    requires vals != []
    decreases |Budget(env, n)|, 0, 0
  {
    var number, name := env.number(vals[0]), vals[0];
    if number.Some? && 0 <= number.value < |args| then Some(args[number.value])
    else if number.Some? && -|args| <= number.value < 0 then Some(args[|args| + number.value])
    else if name !in env.vars then env.outside(vals)
    else if Count(n, name) > (if |vals| == 1 then 0 else 100) then None
    else
      BudgetShrinks(env, n, name);
      Value(env, n[name := Count(n, name) + 1], env.vars[name], vals)
  }

  // Splitting goes along with reading

  lemma PrefixedTwice(a: string, b: string, p: Option<Split>)
    requires p.Some? ==> p.value.parts != []
    ensures Prefixed(a, Prefixed(b, p)) == Prefixed(a + b, p) && Prefixed("", p) == p && Prefixed(a, None) == None
  {
    if p.Some? {
      var ps := p.value.parts;
      assert ([b + ps[0]] + ps[1..])[1..] == ps[1..];
      assert a + (b + ps[0]) == (a + b) + ps[0];
      assert [ps[0]] + ps[1..] == ps && "" + ps[0] == ps[0];
    }
  }

  /** One character. */
  lemma PartsAt(s: string, k: nat, depth: nat)
    requires k < |s|
    ensures Parts(s[k..], depth) ==
            if s[k] == ')' && depth == 0 then Some(Split([""], s[k + 1..]))
            else if s[k] == ',' && depth == 0 then
              (match Parts(s[k + 1..], 0) case None => None case Some(p) => Some(Split([""] + p.parts, p.rest)))
            else Prefixed(s[k..k + 1], Parts(s[k + 1..], if s[k] == '(' then depth + 1
                                                         else if s[k] == ')' then depth - 1 else depth))
  {
    hide Prefixed;
    assert s[k..][0] == s[k] && s[k..][1..] == s[k + 1..] && s[k..][..1] == s[k..k + 1];
  }

  lemma {:induction false} PartsSkip(s: string, i: nat, k: nat, depth: nat)
    requires i <= k <= |s| && forall j :: i <= j < k ==> !SpecialAt(s, j)
    ensures Parts(s[i..], depth) == Prefixed(s[i..k], Parts(s[k..], depth))
    decreases k - i
  {
    hide Parts, Prefixed;
    PrefixedTwice("", "", Parts(s[k..], depth));
    if i < k {
      assert !SpecialAt(s, i);
      PartsAt(s, i, depth);
      PartsSkip(s, i + 1, k, depth);
      PrefixedTwice(s[i..i + 1], s[i + 1..k], Parts(s[k..], depth));
      assert s[i..i + 1] + s[i + 1..k] == s[i..k];
    } else {
      assert s[i..k] == "";
    }
  }

  /** A call within an argument belongs to that argument, commas and all. */
  lemma {:induction false} PartsThrough(t: string, inner: nat, depth: nat)
    ensures var p := Parts(t, inner);
            if p.None? then Parts(t, inner + 1 + depth) == None
            else
              && |p.value.rest| <= |t|
              && Parts(t, inner + 1 + depth) == Prefixed(t[..|t| - |p.value.rest|], Parts(p.value.rest, depth))
    decreases |t|
  {
    hide Prefixed;
    if t == [] {
      assert Parts(t, inner) == None;
    } else if t[0] == ')' && inner == 0 {
      assert Parts(t, inner) == Some(Split([""], t[1..]));
      PartsAt(t, 0, 1 + depth);
      assert t[0..] == t && t[..|t| - |t[1..]|] == t[0..1];
    } else {
      hide Parts;
      var e := if t[0] == '(' then inner + 1 else if t[0] == ')' then inner - 1 else inner;
      PartsThrough(t[1..], e, depth);
      PartsRest(t, inner);
      DeepAt(t, inner + 1 + depth);
      var p := Parts(t[1..], e);
      if p.Some? {
        var rest := p.value.rest;
        var w := t[1..][..|t[1..]| - |rest|];
        PrefixedTwice(t[..1], w, Parts(rest, depth));
        assert t[..1] + w == t[..|t| - |rest|];
      } else {
        PrefixedTwice(t[..1], "", None);
      }
    }
  }

  lemma DeepAt(t: string, depth: nat)
    requires t != [] && depth > 0
    ensures Parts(t, depth) ==
            Prefixed(t[..1], Parts(t[1..], if t[0] == '(' then depth + 1 else if t[0] == ')' then depth - 1 else depth))
  {
    hide Prefixed;
  }

  lemma PartsRest(t: string, inner: nat)
    requires t != [] && !(t[0] == ')' && inner == 0)
    ensures var e := if t[0] == '(' then inner + 1 else if t[0] == ')' then inner - 1 else inner;
            var p, q := Parts(t, inner), Parts(t[1..], e);
            (p.None? <==> q.None?) && (p.Some? ==> p.value.rest == q.value.rest)
  {}

  /** What follows a call does not matter for its arguments. */
  lemma {:induction false} PartsOnly(t: string, depth: nat, z: string)
    requires Parts(t, depth).Some?
    ensures var p := Parts(t, depth).value;
            |p.rest| <= |t| && Parts(t[..|t| - |p.rest|] + z, depth) == Some(Split(p.parts, z))
    decreases |t|
  {
    var p := Parts(t, depth).value;
    PartsShorter(t, depth);
    var w := t[..|t| - |p.rest|];
    assert w != [] && (w + z)[0] == t[0] && (w + z)[..1] == t[..1];
    if t[0] == ')' && depth == 0 {
      assert (w + z)[1..] == z;
    } else {
      var e := if t[0] == '(' then depth + 1 else if t[0] == ')' then depth - 1 else depth;
      PartsRest(t, depth);
      PartsOnly(t[1..], e, z);
      PartsShorter(t[1..], e);
      assert (w + z)[1..] == t[1..][..|t[1..]| - |p.rest|] + z;
    }
  }

  /** An argument starts where the text does. */
  lemma FirstPartStarts(t: string, depth: nat)
    requires Parts(t, depth).Some?
    ensures var first := Parts(t, depth).value.parts[0]; first != [] ==> t != [] && first[0] == t[0]
  {}

  // Values go along with reading

  function Joined(x: string, v: Option<string>): Option<string> {
    if v.None? then None else Some(x + v.value)
  }

  lemma {:induction false} NextMacroLater(s: string, i: nat, j: nat)
    requires i + j <= |s|
    ensures NextMacro(s[i..], j) == NextMacro(s, i + j) - i
    decreases |s| - j
  {
    if i + j < |s| && !MacroAt(s, i + j) { NextMacroLater(s, i, j + 1); }
  }

  lemma {:induction false} NextMacroAfter(x: string, y: string, i: nat)
    requires i <= |x| && forall j :: i <= j < |x| ==> !MacroAt(x + y, j)
    ensures NextMacro(x + y, i) == |x| + NextMacro(y, 0)
    decreases |x| - i
  {
    if i < |x| {
      NextMacroAfter(x, y, i + 1);
    } else {
      NextMacroLater(x + y, |x|, 0);
      assert (x + y)[|x|..] == y;
    }
  }

  /** Text before any call stays. */
  lemma ValuePlain(env: Env, n: Counters, x: string, y: string, args: seq<string>)
    requires forall j :: 0 <= j < |x| ==> !MacroAt(x + y, j)
    ensures Value(env, n, x + y, args) == Joined(x, Value(env, n, y, args))
  {
    hide Parts, Values, CallValue, Value, NextMacro, Appended, Joined;
    NextMacroAfter(x, y, 0);
    var k := NextMacro(y, 0);
    if k == |y| {
      NoCallValue(env, n, y, args);
      NoCallValue(env, n, x + y, args);
      JoinedParts(x, "", None, Some(y));
    } else {
      assert (x + y)[|x| + k + 2..] == y[k + 2..] && (x + y)[..|x| + k] == x + y[..k];
      ValueUnfolds(env, n, y, args);
      ValueUnfolds(env, n, x + y, args);
      JoinedParts(x, "", None, None);
      var call := Parts(y[k + 2..], 0);
      if call.Some? && Values(env, n, call.value.parts, args).Some? {
        JoinedParts(x, y[..k], CallValue(env, n, Values(env, n, call.value.parts, args).value, args),
                    Value(env, n, call.value.rest, args));
      }
    }
  }

  lemma JoinedParts(x: string, y: string, v: Option<string>, more: Option<string>)
    ensures Appended(x + y, v, more) == Joined(x, Appended(y, v, more)) && Joined(x, None) == None
    ensures more.Some? ==> Joined(x, more) == Some(x + more.value)
  {
    if v.Some? && more.Some? { assert x + y + v.value + more.value == x + (y + v.value + more.value); }
  }

  lemma ValueUnfolds(env: Env, n: Counters, t: string, args: seq<string>)
    requires NextMacro(t, 0) < |t|
    ensures var k := NextMacro(t, 0);
            Value(env, n, t, args) ==
            match Parts(t[k + 2..], 0)
            case None => None
            case Some(call) =>
              match Values(env, n, call.parts, args)
              case None => None
              case Some(vals) => Appended(t[..k], CallValue(env, n, vals, args), Value(env, n, call.rest, args))
  {
    hide Parts, Values, CallValue, NextMacro;
  }

  function Appended(x: string, v: Option<string>, more: Option<string>): Option<string> {
    if v.None? || more.None? then None else Some(x + v.value + more.value)
  }

  /** A call is replaced by its value. */
  lemma ValueOfCall(env: Env, n: Counters, w: string, parts: seq<string>, z: string, args: seq<string>)
    requires Parts(w + z, 0) == Some(Split(parts, z)) && parts != []
    ensures Value(env, n, "$(" + w + z, args) ==
            match Values(env, n, parts, args)
            case None => None
            case Some(vals) => Appended("", CallValue(env, n, vals, args), Value(env, n, z, args))
  {
    hide Parts, Values, CallValue, Value;
    var t := "$(" + w + z;
    CallFirst(w, z);
    assert t[..0] == "";
    ValueUnfolds(env, n, t, args);
  }

  lemma CallFirst(w: string, z: string)
    ensures var t := "$(" + w + z; NextMacro(t, 0) == 0 && |t| >= 2 && t[2..] == w + z
  {
    assert MacroAt("$(" + w + z, 0);
  }

  // Scanning

  /** What is found once the current argument is `pre` so far, `newArgs` came before it, and `p` is ahead. */
  function Found(env: Env, n: Counters, before: string, pre: string, newArgs: seq<string>, p: Option<Split>,
                 args: seq<string>): Option<(string, nat)>
    requires p.Some? ==> p.value.parts != []
  {
    if p.None? then None
    else
      match Values(env, n, p.value.parts, args)
      case None => None
      case Some(vs) => Placed(before, CallValue(env, n, newArgs + [pre + vs[0]] + vs[1..], args), p.value.rest)
  }

  function Placed(before: string, val: Option<string>, after: string): Option<(string, nat)> {
    if val.None? then None else Some((before + val.value + after, |before| + |val.value|))
  }

  /** Reading on in the same argument: `w`, which stands for `c`. */
  lemma FoundOn(env: Env, n: Counters, before: string, pre: string, newArgs: seq<string>, w: string,
                c: Option<string>, p: Option<Split>, args: seq<string>)
    requires p.Some? ==> p.value.parts != []
    requires p.Some? ==>
               var y := p.value.parts[0];
               Value(env, n, w + y, args) == Appended("", c, Value(env, n, y, args))
    ensures Found(env, n, before, pre, newArgs, Prefixed(w, p), args) ==
            if c.None? then None else Found(env, n, before, pre + c.value, newArgs, p, args)
  {
    hide Value, CallValue;
    if p.Some? {
      var ps := p.value.parts;
      var qs := [w + ps[0]] + ps[1..];
      assert qs[0] == w + ps[0] && qs[1..] == ps[1..];
      var v := Value(env, n, ps[0], args);
      if c.Some? && v.Some? {
        assert "" + c.value + v.value == c.value + v.value;
        assert pre + (c.value + v.value) == (pre + c.value) + v.value;
        var more := Values(env, n, ps[1..], args);
        if more.Some? {
          assert ([v.value] + more.value)[1..] == more.value;
          assert ([c.value + v.value] + more.value)[1..] == more.value;
        }
      }
    }
  }

  /** A comma ends the argument. */
  lemma FoundComma(env: Env, n: Counters, before: string, pre: string, newArgs: seq<string>, p: Split,
                   args: seq<string>)
    requires p.parts != []
    ensures Found(env, n, before, pre, newArgs, Some(Split([""] + p.parts, p.rest)), args) ==
            Found(env, n, before, "", newArgs + [pre], Some(p), args)
  {
    NothingInside(env, n, args);
    hide Value, CallValue;
    assert ([""] + p.parts)[1..] == p.parts;
    var more := Values(env, n, p.parts, args);
    if more.Some? {
      assert ([""] + more.value)[1..] == more.value && pre + "" == pre && "" + more.value[0] == more.value[0];
      assert newArgs + [pre] + more.value == newArgs + [pre] + [more.value[0]] + more.value[1..];
    }
  }

  lemma NothingInside(env: Env, n: Counters, args: seq<string>)
    ensures Value(env, n, "", args) == Some("")
  {}

  /** The end of the call. */
  lemma FoundEnd(env: Env, n: Counters, before: string, pre: string, newArgs: seq<string>, rest: string,
                 args: seq<string>)
    ensures Found(env, n, before, pre, newArgs, Some(Split([""], rest)), args) ==
            Placed(before, CallValue(env, n, newArgs + [pre], args), rest)
  {
    NothingInside(env, n, args);
    hide Value, CallValue;
    assert Values(env, n, [""][1..], args) == Some([]);
    assert Values(env, n, [""], args) == Some([""] + []);
    assert pre + "" == pre && [""][1..] == [];
    assert newArgs + [pre] + [] == newArgs + [pre];
  }

  // The code agrees

  lemma {:induction false} FnValMeans(env: Env, n: Counters, vals: seq<string>, args: seq<string>)
    requires vals != [] && (env.number(vals[0]).Some? ==> !(-|args| <= env.number(vals[0]).value < |args|))
    ensures FnVal(env, n, vals) == CallValue(env, n, vals, args)
    decreases |Budget(env, n)|, 0, 0
  {
    var fn := vals[0];
    if fn in env.vars && Count(n, fn) <= (if |vals| == 1 then 0 else 100) {
      BudgetShrinks(env, n, fn);
      ExpansionMeans(env, n[fn := Count(n, fn) + 1], env.vars[fn], vals);
    }
  }

  lemma {:induction false} CallMeans(env: Env, n: Counters, vals: seq<string>, args: seq<string>)
    requires vals != []
    ensures CallVal(env, n, vals, args) == CallValue(env, n, vals, args)
    decreases |Budget(env, n)|, 0, 1
  {
    var k := env.number(vals[0]);
    if !(k.Some? && -|args| <= k.value < |args|) {
      hide FnVal, CallValue;
      FnValMeans(env, n, vals, args);
    }
  }

  /** Whole texts. */
  lemma {:induction false} ExpansionMeans(env: Env, n: Counters, s: string, args: seq<string>)
    ensures ExpandFrom(env, n, s, 0, args) == Value(env, n, s, args)
    decreases |Budget(env, n)|, |s| + 1, 3
  {
    hide ExpandFrom, Value, Budget;
    ExpandFromMeans(env, n, s, 0, args);
    assert s[0..] == s && s[..0] == "";
    if Value(env, n, s, args).Some? { assert "" + Value(env, n, s, args).value == Value(env, n, s, args).value; }
  }

  lemma {:induction false} ExpandFromMeans(env: Env, n: Counters, s: string, i: nat, args: seq<string>)
    requires i <= |s|
    ensures ExpandFrom(env, n, s, i, args) == Joined(s[..i], Value(env, n, s[i..], args))
    decreases |Budget(env, n)|, |s| - i + 1, 2
  {
    hide Budget, Parts, Values, CallValue, Value, ExpandMacro, ExpandFrom, Joined, Appended;
    var k, t := NextMacro(s, i), s[i..];
    NextMacroLater(s, i, 0);
    ExpandUnfolds(env, n, s, i, args);
    if k == |s| {
      NoCallValue(env, n, t, args);
      WholeJoined(s, i);
    } else {
      WholeJoined(s, i);
      MacroMeans(env, n, s, k, args);
      ValueUnfolds(env, n, t, args);
      assert t[k - i + 2..] == s[k + 2..];
      var v, more := InnerValue(env, n, s, k, args), InnerRest(env, n, s, k, args);
      if v.Some? {
        InnerPlaced(env, n, s, k, args);
        var rest := Parts(s[k + 2..], 0).value.rest;
        var s', end := s[..k] + v.value + rest, k + |v.value|;
        ExpandFromMeans(env, n, s', end, args);
        AllJoined(s, i, k, v.value, rest, more);
      }
    }
  }

  lemma WholeJoined(s: string, i: nat)
    requires i <= |s|
    ensures Joined(s[..i], Some(s[i..])) == Some(s) && forall x: string :: Joined(x, None) == None
    ensures forall x: string, v: Option<string> :: Appended(x, None, v) == None
  {
    assert s[..i] + s[i..] == s;
  }

  lemma AllJoined(s: string, i: nat, k: nat, v: string, rest: string, more: Option<string>)
    requires i <= k <= |s|
    ensures (s[..k] + v + rest)[..k + |v|] == s[..k] + v
    ensures Joined(s[..k] + v, more) == Joined(s[..i], Appended(s[i..][..k - i], Some(v), more))
  {
    assert s[..i] + s[i..][..k - i] == s[..k];
    if more.Some? { assert s[..k] + v + more.value == s[..i] + (s[i..][..k - i] + v + more.value); }
  }

  /** The value of the text after the call at `k`. */
  function InnerRest(env: Env, n: Counters, s: string, k: nat, args: seq<string>): Option<string>
    requires MacroAt(s, k)
  {
    var call :- Parts(s[k + 2..], 0);
    Value(env, n, call.rest, args)
  }

  lemma NoCallValue(env: Env, n: Counters, t: string, args: seq<string>)
    requires NextMacro(t, 0) == |t|
    ensures Value(env, n, t, args) == Some(t)
  {}

  lemma ExpandUnfolds(env: Env, n: Counters, s: string, i: nat, args: seq<string>)
    requires i <= |s|
    ensures var k := NextMacro(s, i);
            ExpandFrom(env, n, s, i, args) ==
            if k == |s| then Some(s)
            else
              var r := ExpandMacro(env, n, s, k, args);
              if r.None? then None else ExpandFrom(env, n, r.value.0, r.value.1, args)
  {
    hide ExpandMacro;
  }

  /** One call, in terms of its arguments. */
  lemma {:induction false} MacroMeans(env: Env, n: Counters, s: string, i: nat, args: seq<string>)
    requires MacroAt(s, i)
    ensures ExpandMacro(env, n, s, i, args) ==
            match Parts(s[i + 2..], 0)
            case None => None
            case Some(call) =>
              match Values(env, n, call.parts, args)
              case None => None
              case Some(vals) => Placed(s[..i], CallValue(env, n, vals, args), call.rest)
    decreases |Budget(env, n)|, |s| - i, 1
  {
    hide Budget, Parts, CallValue, Value;
    ScanMeans(env, n, s, i, i + 2, i + 2, [], 0, args);
    var call := Parts(s[i + 2..], 0);
    if call.Some? && Values(env, n, call.value.parts, args).Some? {
      var vals := Values(env, n, call.value.parts, args).value;
      assert s[i + 2..i + 2] == "" && "" + vals[0] == vals[0] && [] + [vals[0]] + vals[1..] == vals;
    }
  }

  lemma {:induction false} ScanMeans(env: Env, n: Counters, s: string, start: nat, i: nat, argStart: nat,
                                     newArgs: seq<string>, nesting: nat, args: seq<string>)
    requires start < argStart <= i <= |s|
    ensures Scan(env, n, s, start, i, argStart, newArgs, nesting, args) ==
            Found(env, n, s[..start], s[argStart..i], newArgs, Parts(s[i..], nesting), args)
    decreases |Budget(env, n)|, |s| - i + 1, 1
  {
    hide Budget, Parts, Found, Scan, Prefixed, CallValue, Value;
    var k := NextSpecial(s, i);
    PartsSkip(s, i, k, nesting);
    SkipMeans(env, n, s, start, i, k, argStart, newArgs, nesting, args);
    if Moves(s, k, nesting) {
      MoveMeans(env, n, s, start, i, argStart, newArgs, nesting, args);
    } else {
      StopMeans(env, n, s, start, i, argStart, newArgs, nesting, args);
    }
  }

  /** A character that only moves the scan on. */
  lemma {:induction false} MoveMeans(env: Env, n: Counters, s: string, start: nat, i: nat, argStart: nat,
                                     newArgs: seq<string>, nesting: nat, args: seq<string>)
    requires start < argStart <= i <= |s| && Moves(s, NextSpecial(s, i), nesting)
    ensures var k := NextSpecial(s, i);
            Scan(env, n, s, start, i, argStart, newArgs, nesting, args) ==
            Found(env, n, s[..start], s[argStart..k], newArgs, Parts(s[k..], nesting), args)
    decreases |Budget(env, n)|, |s| - i + 1, 0
  {
    hide Budget, Parts, Found, Scan, Prefixed, CallValue, Value;
    var k := NextSpecial(s, i);
    ScanMoves(env, n, s, start, i, argStart, newArgs, nesting, args);
    PartsAt(s, k, nesting);
    if s[k] == ',' && nesting == 0 {
      ScanMeans(env, n, s, start, k + 1, k + 1, newArgs + [s[argStart..k]], 0, args);
      assert s[k + 1..k + 1] == "";
      var p := Parts(s[k + 1..], 0);
      if p.Some? {
        FoundComma(env, n, s[..start], s[argStart..k], newArgs, p.value, args);
      } else {
        NotFound(env, n, s[..start], s[argStart..k], newArgs, args);
        NotFound(env, n, s[..start], "", newArgs + [s[argStart..k]], args);
      }
    } else {
      var e := NestingAfter(s, k, nesting);
      ScanMeans(env, n, s, start, k + 1, argStart, newArgs, e, args);
      OneCharMeans(env, n, s, start, k, argStart, newArgs, e, args);
    }
  }

  lemma NotFound(env: Env, n: Counters, before: string, pre: string, newArgs: seq<string>, args: seq<string>)
    ensures Found(env, n, before, pre, newArgs, None, args) == None
  {}

  lemma OneCharMeans(env: Env, n: Counters, s: string, start: nat, k: nat, argStart: nat, newArgs: seq<string>, e: nat,
                     args: seq<string>)
    requires start < argStart <= k < |s| && s[k] != '$'
    ensures Found(env, n, s[..start], s[argStart..k], newArgs, Prefixed(s[k..k + 1], Parts(s[k + 1..], e)), args) ==
            Found(env, n, s[..start], s[argStart..k + 1], newArgs, Parts(s[k + 1..], e), args)
  {
    hide Parts, Found, CallValue, Value;
    var w, p := s[k..k + 1], Parts(s[k + 1..], e);
    if p.Some? {
      var y := p.value.parts[0];
      ValuePlain(env, n, w, y, args);
      SameJoined(w, Value(env, n, y, args));
    }
    FoundOn(env, n, s[..start], s[argStart..k], newArgs, w, Some(w), p, args);
    assert s[argStart..k] + w == s[argStart..k + 1];
  }

  /** The end of the call, of the text, or a call within the call. */
  lemma {:induction false} StopMeans(env: Env, n: Counters, s: string, start: nat, i: nat, argStart: nat,
                                     newArgs: seq<string>, nesting: nat, args: seq<string>)
    requires start < argStart <= i <= |s| && !Moves(s, NextSpecial(s, i), nesting)
    ensures var k := NextSpecial(s, i);
            Scan(env, n, s, start, i, argStart, newArgs, nesting, args) ==
            Found(env, n, s[..start], s[argStart..k], newArgs, Parts(s[k..], nesting), args)
    decreases |Budget(env, n)|, |s| - i + 1, 0
  {
    hide Budget, Found, Scan, Prefixed, CallValue, Value, CallVal, ExpandMacro;
    var k := NextSpecial(s, i);
    ScanStops(env, n, s, start, i, argStart, newArgs, nesting, args);
    if k == |s| {
      assert s[k..] == [];
      NotFound(env, n, s[..start], s[argStart..k], newArgs, args);
    } else {
      hide Parts;
      if s[k] == ')' {
        PartsAt(s, k, nesting);
        CallMeans(env, n, newArgs + [s[argStart..k]], args);
        FoundEnd(env, n, s[..start], s[argStart..k], newArgs, s[k + 1..], args);
      } else {
        NestedMeans(env, n, s, start, i, argStart, newArgs, nesting, args);
      }
    }
  }

  lemma {:induction false} NestedMeans(env: Env, n: Counters, s: string, start: nat, i: nat, argStart: nat,
                                       newArgs: seq<string>, nesting: nat, args: seq<string>)
    requires start < argStart <= i <= |s| && MacroAt(s, NextSpecial(s, i))
    ensures var k := NextSpecial(s, i); var r := ExpandMacro(env, n, s, k, args);
            Found(env, n, s[..start], s[argStart..k], newArgs, Parts(s[k..], nesting), args) ==
            if r.None? then None else Scan(env, n, r.value.0, start, r.value.1, argStart, newArgs, nesting, args)
    decreases |Budget(env, n)|, |s| - i, 2
  {
    hide Budget, Found, Scan, CallValue, Value, Values, Parts, ExpandMacro;
    var k := NextSpecial(s, i);
    MacroMeans(env, n, s, k, args);
    InnerCall(env, n, s, start, k, argStart, newArgs, nesting, args);
    var v := InnerValue(env, n, s, k, args);
    if v.Some? {
      InnerPlaced(env, n, s, k, args);
      var s', end := s[..k] + v.value + Parts(s[k + 2..], 0).value.rest, k + |v.value|;
      ScanMeans(env, n, s', start, end, argStart, newArgs, nesting, args);
      assert s'[..start] == s[..start] && s'[argStart..end] == s[argStart..k] + v.value;
    }
  }

  /** The value of the call at `k`. */
  function InnerValue(env: Env, n: Counters, s: string, k: nat, args: seq<string>): Option<string>
    requires MacroAt(s, k)
  {
    var call :- Parts(s[k + 2..], 0);
    var vals :- Values(env, n, call.parts, args);
    CallValue(env, n, vals, args)
  }

  lemma InnerPlaced(env: Env, n: Counters, s: string, k: nat, args: seq<string>)
    requires MacroAt(s, k) && InnerValue(env, n, s, k, args).Some?
    ensures var v, rest := InnerValue(env, n, s, k, args).value, Parts(s[k + 2..], 0).value.rest;
            var s' := s[..k] + v + rest;
            s'[k..k + |v|] == v && s'[k + |v|..] == rest
  {}

  /** A call within an argument stands for its value there. */
  lemma InnerCall(env: Env, n: Counters, s: string, start: nat, k: nat, argStart: nat, newArgs: seq<string>,
                  nesting: nat, args: seq<string>)
    requires start < argStart <= k && MacroAt(s, k)
    ensures var v := InnerValue(env, n, s, k, args);
            Found(env, n, s[..start], s[argStart..k], newArgs, Parts(s[k..], nesting), args) ==
            if v.None? then None
            else Found(env, n, s[..start], s[argStart..k] + v.value, newArgs,
                       Parts(Parts(s[k + 2..], 0).value.rest, nesting), args)
  {
    hide Found, Values, CallValue, Value, Parts, Prefixed;
    CallBelongs(s, k, nesting);
    var t := s[k + 2..];
    var call := Parts(t, 0);
    if call.None? {
      NotFound(env, n, s[..start], s[argStart..k], newArgs, args);
    } else {
      PartsShorter(t, 0);
      var w := t[..|t| - |call.value.rest|];
      var p := Parts(call.value.rest, nesting);
      var vals := Values(env, n, call.value.parts, args);
      var c := if vals.None? then None else CallValue(env, n, vals.value, args);
      if p.Some? {
        var y := p.value.parts[0];
        PartsOnly(t, 0, y);
        ValueOfCall(env, n, w, call.value.parts, y, args);
        assert "$(" + w + y == ("$(" + w) + y;
      }
      FoundOn(env, n, s[..start], s[argStart..k], newArgs, "$(" + w, c, p, args);
    }
  }

  lemma CallBelongs(s: string, k: nat, nesting: nat)
    requires MacroAt(s, k)
    ensures var t := s[k + 2..]; var call := Parts(t, 0);
            if call.None? then Parts(s[k..], nesting) == None
            else
              && |call.value.rest| <= |t|
              && Parts(s[k..], nesting) ==
                   Prefixed("$(" + t[..|t| - |call.value.rest|], Parts(call.value.rest, nesting))
  {
    hide Parts, Prefixed;
    var t := s[k + 2..];
    PartsAt(s, k, nesting);
    PartsAt(s, k + 1, nesting);
    PartsThrough(t, 0, nesting);
    assert s[k..k + 1] == "$" && s[k + 1..k + 2] == "(";
    var p := Parts(t, 0);
    PrefixedTwice("(", "", None);
    PrefixedTwice("$", "", None);
    if p.Some? {
      var w := t[..|t| - |p.value.rest|];
      var q := Parts(p.value.rest, nesting);
      PrefixedTwice("(", w, q);
      PrefixedTwice("$", "(" + w, q);
      assert "$" + ("(" + w) == "$(" + w;
    }
  }

  /** Skipping text without special characters. */
  lemma SkipMeans(env: Env, n: Counters, s: string, start: nat, i: nat, k: nat, argStart: nat, newArgs: seq<string>,
                  nesting: nat, args: seq<string>)
    requires start < argStart <= i <= |s| && k == NextSpecial(s, i)
    ensures Found(env, n, s[..start], s[argStart..i], newArgs, Prefixed(s[i..k], Parts(s[k..], nesting)), args) ==
            Found(env, n, s[..start], s[argStart..k], newArgs, Parts(s[k..], nesting), args)
  {
    hide Parts, Found, CallValue, Value;
    var w, p := s[i..k], Parts(s[k..], nesting);
    if p.Some? {
      var y := p.value.parts[0];
      FirstPartStarts(s[k..], nesting);
      forall j | 0 <= j < |w| ensures !MacroAt(w + y, j) { assert !SpecialAt(s, i + j) && s[i + j] == w[j]; }
      ValuePlain(env, n, w, y, args);
      SameJoined(w, Value(env, n, y, args));
    }
    FoundOn(env, n, s[..start], s[argStart..i], newArgs, w, Some(w), p, args);
    assert s[argStart..i] + w == s[argStart..k];
  }

  lemma SameJoined(x: string, v: Option<string>)
    ensures Joined(x, v) == Appended("", Some(x), v)
  {
    assert "" + x == x;
  }

  // Consequences

  /** What follows the parenthesis that closes the last of `depth + 1` open ones. */
  function Rest(t: string, depth: nat): Option<string> {
    if t == [] then None
    else if t[0] == '(' then Rest(t[1..], depth + 1)
    else if t[0] == ')' then if depth == 0 then Some(t[1..]) else Rest(t[1..], depth - 1)
    else Rest(t[1..], depth)
  }

  lemma {:induction false} PartsMatch(t: string, depth: nat)
    ensures Rest(t, depth) == if Parts(t, depth).None? then None else Some(Parts(t, depth).value.rest)
    decreases |t|
  {
    if t != [] && !(t[0] == ')' && depth == 0) {
      PartsMatch(t[1..], if t[0] == '(' then depth + 1 else if t[0] == ')' then depth - 1 else depth);
    }
  }

  /** A macro call is replaced in place. It ends at the parenthesis that matches its own, whatever
      parentheses the values of nested calls contain; the text before it and after that stays. */
  lemma OnlyTheCall(env: Env, n: Counters, s: string, i: nat, args: seq<string>)
    requires MacroAt(s, i) && ExpandMacro(env, n, s, i, args).Some?
    ensures var (s', end) := ExpandMacro(env, n, s, i, args).value;
            i <= end <= |s'| && s'[..i] == s[..i] && Rest(s[i + 2..], 0) == Some(s'[end..])
  {
    hide ExpandMacro, Parts, Rest, Values, CallValue;
    MacroMeans(env, n, s, i, args);
    PartsMatch(s[i + 2..], 0);
    InnerPlaced(env, n, s, i, args);
  }

  /** The argument lists of the calls in a text that are in no other call; `None` if one of them is not
      closed. */
  function Calls(t: string): Option<seq<seq<string>>>
    decreases |t|
  {
    var k := NextMacro(t, 0);
    if k == |t| then Some([])
    else
      PartsShorter(t[k + 2..], 0);
      var call :- Parts(t[k + 2..], 0);
      var more :- Calls(call.rest);
      Some([call.parts] + more)
  }

  /** The values of calls with the given argument lists. */
  function CallsValue(env: Env, n: Counters, calls: seq<seq<string>>, args: seq<string>): (r: Option<seq<string>>)
    ensures r.Some? ==> |r.value| == |calls|
  {
    if calls == [] then Some([])
    else if calls[0] == [] then None
    else
      var vals :- Values(env, n, calls[0], args);
      var v :- CallValue(env, n, vals, args);
      var more :- CallsValue(env, n, calls[1..], args);
      Some([v] + more)
  }

  /** The text with its calls replaced by `vals`, one after the other, and nothing else changed. */
  function Filled(t: string, vals: seq<string>): string
    requires Calls(t).Some? && |vals| == |Calls(t).value|
    decreases |t|
  {
    var k := NextMacro(t, 0);
    if k == |t| then t
    else
      PartsShorter(t[k + 2..], 0);
      t[..k] + vals[0] + Filled(Parts(t[k + 2..], 0).value.rest, vals[1..])
  }

  /** Expansion replaces the outermost calls by their values and keeps all other text. It fails if and only
      if a call is not closed or has no value. */
  lemma TextKept(env: Env, n: Counters, s: string, args: seq<string>)
    ensures ExpandFrom(env, n, s, 0, args) ==
            match Calls(s)
            case None => None
            case Some(calls) =>
              match CallsValue(env, n, calls, args)
              case None => None
              case Some(vals) => Some(Filled(s, vals))
  {
    hide ExpandFrom, Calls, CallsValue, Filled, Value;
    ExpansionMeans(env, n, s, args);
    ValueIsFilled(env, n, s, args);
  }

  lemma {:induction false} ValueIsFilled(env: Env, n: Counters, t: string, args: seq<string>)
    ensures Value(env, n, t, args) ==
            match Calls(t)
            case None => None
            case Some(calls) =>
              match CallsValue(env, n, calls, args)
              case None => None
              case Some(vals) => Some(Filled(t, vals))
    decreases |t|
  {
    hide Parts, Values, CallValue, NextMacro;
    var k := NextMacro(t, 0);
    if k == |t| {
      NoCallValue(env, n, t, args);
    } else {
      ValueUnfolds(env, n, t, args);
      hide Value;
      PartsShorter(t[k + 2..], 0);
      var call := Parts(t[k + 2..], 0);
      if call.Some? {
        ValueIsFilled(env, n, call.value.rest, args);
        var more := Calls(call.value.rest);
        if more.Some? {
          assert ([call.value.parts] + more.value)[1..] == more.value;
          var rest := CallsValue(env, n, more.value, args);
          var vals := Values(env, n, call.value.parts, args);
          if vals.Some? && rest.Some? {
            var v := CallValue(env, n, vals.value, args);
            if v.Some? { assert ([v.value] + rest.value)[1..] == rest.value; }
          }
        }
      }
    }
  }

  /** Text without special characters. */
  predicate Plain(t: string) {
    forall i :: 0 <= i < |t| ==> t[i] != '$' && t[i] != '(' && t[i] != ')' && t[i] != ','
  }

  /** Plain text before a special character belongs to the first argument. */
  lemma {:induction false} PlainFirst(t: string, z: string)
    requires Plain(t)
    ensures Parts(t + z, 0) == Prefixed(t, Parts(z, 0))
  {
    hide Prefixed;
    PrefixedTwice("", "", Parts(z, 0));
    if t == [] {
      assert t + z == z;
    } else {
      PlainFirst(t[1..], z);
      assert (t + z)[1..] == t[1..] + z && (t + z)[..1] == t[..1] && (t + z)[0] == t[0];
      PrefixedTwice(t[..1], t[1..], Parts(z, 0));
      assert t[..1] + t[1..] == t;
    }
  }

  lemma PlainOnly(t: string)
    requires Plain(t)
    ensures Parts(t + ")", 0) == Some(Split([t], ""))
  {
    PlainFirst(t, ")");
    assert ")"[1..] == "" && Parts(")", 0) == Some(Split([""], ""));
    assert t + "" == t && [""][1..] == [] && [t] + [] == [t];
  }

  lemma PlainPair(t: string, a: string)
    requires Plain(t) && Plain(a)
    ensures Parts(t + "," + a + ")", 0) == Some(Split([t, a], ""))
  {
    var z := "," + a + ")";
    assert t + "," + a + ")" == t + z;
    PlainFirst(t, z);
    PlainOnly(a);
    assert z[0] == ',' && z[1..] == a + ")";
    hide Parts;
    assert Parts(z, 0) == Some(Split([""] + [a], "")) by { CommaFirst(z); }
    assert t + "" == t && ([""] + [a])[1..] == [a] && [t] + [a] == [t, a];
  }

  lemma CommaFirst(z: string)
    requires z != [] && z[0] == ',' && Parts(z[1..], 0).Some?
    ensures Parts(z, 0) == Some(Split([""] + Parts(z[1..], 0).value.parts, Parts(z[1..], 0).value.rest))
  {}

  lemma PlainValues(env: Env, n: Counters, ts: seq<string>, args: seq<string>)
    requires forall t :: t in ts ==> Plain(t)
    ensures Values(env, n, ts, args) == Some(ts)
    decreases |ts|
  {
    hide Value, Plain;
    if ts != [] {
      assert ts[0] in ts;
      PlainValue(env, n, ts[0], args);
      PlainValues(env, n, ts[1..], args);
      assert [ts[0]] + ts[1..] == ts;
    }
  }

  lemma PlainValue(env: Env, n: Counters, t: string, args: seq<string>)
    requires Plain(t)
    ensures Value(env, n, t, args) == Some(t)
  {
    assert t + "" == t;
    ValuePlain(env, n, t, "", args);
    NothingInside(env, n, args);
  }

  /** The value of a text that is a single call with plain arguments. */
  lemma SingleCall(env: Env, n: Counters, w: string, ts: seq<string>, args: seq<string>)
    requires ts != [] && (forall t :: t in ts ==> Plain(t)) && Parts(w, 0) == Some(Split(ts, ""))
    ensures Value(env, n, "$(" + w, args) == CallValue(env, n, ts, args)
  {
    hide Value, Parts, CallValue, Values;
    assert w + "" == w && "$(" + w + "" == "$(" + w;
    ValueOfCall(env, n, w, ts, "", args);
    PlainValues(env, n, ts, args);
    NothingInside(env, n, args);
    var v := CallValue(env, n, ts, args);
    if v.Some? { assert "" + v.value + "" == v.value; }
  }

  /** "$(k)" alone is the k-th argument of the surrounding call. */
  lemma ArgumentValue(env: Env, n: Counters, digits: string, k: nat, args: seq<string>)
    requires Plain(digits) && env.number(digits) == Some(k) && k < |args|
    ensures ExpandFrom(env, n, "$(" + digits + ")", 0, args) == Some(args[k])
  {
    hide Value, Parts, ExpandFrom;
    ExpansionMeans(env, n, "$(" + digits + ")", args);
    PlainOnly(digits);
    assert "$(" + (digits + ")") == "$(" + digits + ")";
    SingleCall(env, n, digits + ")", [digits], args);
  }

  /** A variable whose text is "$(1)", called with an argument, expands to that argument. */
  lemma CalledWith(env: Env, n: Counters, name: string, digits: string, a: string, args: seq<string>)
    requires Plain(name) && Plain(a) && Plain(digits) && env.number(digits) == Some(1) && env.number(name) == None
    requires name in env.vars && env.vars[name] == "$(" + digits + ")" && Count(n, name) <= 100
    ensures ExpandFrom(env, n, "$(" + name + "," + a + ")", 0, args) == Some(a)
  {
    hide Value, Parts, ExpandFrom, Plain;
    ExpansionMeans(env, n, "$(" + name + "," + a + ")", args);
    PlainPair(name, a);
    assert "$(" + (name + "," + a + ")") == "$(" + name + "," + a + ")";
    SingleCall(env, n, name + "," + a + ")", [name, a], args);
    var n' := n[name := Count(n, name) + 1];
    ArgumentValue(env, n', digits, 1, [name, a]);
    ExpansionMeans(env, n', env.vars[name], [name, a]);
  }
}
