/** Incremental builds: sync_deps() compares the current values with those in auto.conf and touches
    one file per symbol that changed. Touched files are modelled as the set of symbol names. */
module KconfigSyncDeps {
  import opened Basics
  import opened KconfigModel
  import opened KconfigValues
  import opened KconfigCaches
  import opened KconfigInvalidation
  import opened KconfigText
  import opened KconfigEngine
  import opened KconfigRoundTrip
  import opened KconfigFiles

  // What auto.conf says

  /** The value a line of auto.conf records for the symbol it names; `None` for a malformed string. */
  function Recorded(cfg: Config, s: string, val: string): Option<string> {
    if s in cfg.syms && cfg.syms[s].kind == Str then
      var raw :- QuotedMatch(val); Some(Unescape(raw))
    else Some(val)
  }

  /** The old value of `s`: the last one recorded for it. */
  function OldVal(cfg: Config, lines: seq<string>, s: string): Option<string> {
    if lines == [] then None
    else
      var m := SetMatch(lines[|lines| - 1]);
      if m.Some? && m.value.0 == s && Recorded(cfg, s, m.value.1).Some? then Recorded(cfg, s, m.value.1)
      else OldVal(cfg, lines[..|lines| - 1], s)
  }

  /** Symbols that are named but no longer known. */
  function Gone(lines: seq<string>, known: set<string>): set<string> {
    set line | line in lines && SetMatch(line).Some? && SetMatch(line).value.0 !in known :: SetMatch(line).value.0
  }

  /** Reading a line that names a key symbol raises an error: the pattern for keys has no group to
      extract. */
  predicate Fails(cfg: Config, line: string) {
    var m := SetMatch(line);
    m.Some? && m.value.0 in cfg.syms && cfg.syms[m.value.0].kind == Key
  }

  // What the configuration says

  /** The entry of `s` in auto.conf: n-valued logical symbols and symbols without entry have none. */
  function NewVal(cfg: Config, u: User, s: string): Option<string>
    requires WellFormed(cfg)
  {
    var t := SymStr(cfg, u, s);
    if s !in cfg.syms || !t.write || (cfg.syms[s].kind.Logical() && t.val == "n") then None else Some(t.val)
  }

  function AutoKept(cfg: Config, u: User): set<string>
    requires WellFormed(cfg)
  {
    set s | s in cfg.syms && !(cfg.syms[s].kind.Logical() && SymStr(cfg, u, s).val == "n")
  }

  /** _old_vals_contents(). */
  function AutoConfLines(cfg: Config, u: User): seq<string>
    requires WellFormed(cfg)
  {
    EntriesOf(cfg, u, cfg.symOrder, AutoKept(cfg, u))
  }

  /** The contents of auto.conf. */
  function AutoConf(cfg: Config, u: User): string
    requires WellFormed(cfg)
  {
    JoinLines(AutoConfLines(cfg, u))
  }

  /** The decision for one symbol. */
  predicate Changed(cfg: Config, u: User, s: string, old_: Option<string>)
    requires WellFormed(cfg) && s in cfg.syms
  {
    var t := SymStr(cfg, u, s);
    if t.write then !(old_.None? && cfg.syms[s].kind.Logical() && t.val == "n") && old_ != Some(t.val)
    else old_.Some?
  }

  function Touched(cfg: Config, u: User, known: set<string>, lines: seq<string>): set<string>
    requires WellFormed(cfg)
  {
    Gone(lines, known) + set s | s in cfg.syms && Changed(cfg, u, s, OldVal(cfg, lines, s))
  }

  // The code

  /** _load_old_vals(). */
  method LoadOldVals(cfg: Config, known: set<string>, lines: seq<string>)
    returns (failed: bool, oldVals: map<string, string>, touched: set<string>)
    requires forall s :: s in cfg.syms ==> s in known
    ensures failed <==> exists line :: line in lines && Fails(cfg, line)
    ensures !failed ==> touched == Gone(lines, known)
    ensures !failed ==> forall s :: s in known ==> Get(oldVals, s) == OldVal(cfg, lines, s)
  {
    failed, oldVals, touched := false, map[], {};
    for n := 0 to |lines|
      invariant !failed && forall line :: line in lines[..n] ==> !Fails(cfg, line)
      invariant forall s :: s in known ==> Get(oldVals, s) == OldVal(cfg, lines[..n], s)
      invariant touched == Gone(lines[..n], known)
    {
      hide SetMatch, Recorded;
      assert lines[..n + 1][..n] == lines[..n];
      assert forall line :: line in lines[..n + 1] <==> line in lines[..n] || line == lines[n];
      var m := SetMatch(lines[n]);
      if m.Some? {
        var name, val := m.value.0, m.value.1;
        if name in known {
          if name in cfg.syms && cfg.syms[name].kind == Key {
            failed := true;
            assert Fails(cfg, lines[n]);
            return;
          }
          var r := Recorded(cfg, name, val);
          if r.Some? { oldVals := oldVals[name := r.value]; }
        } else {
          touched := touched + {name};
        }
      }
    }
    assert lines[..|lines|] == lines;
  }

  /** sync_deps(): given the contents of auto.conf, what is touched, and the new contents. */
  method SyncDeps(k: Kconfig, known: set<string>, text: string)
    returns (failed: bool, touched: set<string>, written: string)
    requires k.Valid() && k.Ready() && forall s :: s in k.config.syms ==> s in known
    modifies k`cachedVis, k`cachedTri, k`cachedStr, k`cachedAssignable, k`cachedSelection
    ensures k.Valid() && k.Ready()
    ensures failed <==> exists line :: line in SplitLines(text) && Fails(k.config, line)
    ensures !failed ==>
              && touched == Touched(k.config, k.State(), known, SplitLines(text))
              && written == AutoConf(k.config, k.State())
  {
    k.ValidParts();
    hide Kconfig.Valid, Kconfig.State, Kconfig.Linked, WellFormed, UserOk, Justified, Touched, AutoConfLines, Fails,
         SplitLines, JoinLines;
    var lines := SplitLines(text);
    var oldVals;
    failed, oldVals, touched := LoadOldVals(k.config, known, lines);
    if failed { written := ""; return; }
    touched := TouchChanged(k, touched, oldVals, lines);
    AllChanged(k.config, k.State(), known, lines);
    var entries := WriteOldVals(k);
    written := JoinLines(entries);
  }

  /** The changed symbols among `syms`. */
  ghost function ChangedAmong(cfg: Config, u: User, lines: seq<string>, syms: seq<string>): set<string>
    requires WellFormed(cfg)
  {
    set s | s in syms && s in cfg.syms && Changed(cfg, u, s, OldVal(cfg, lines, s))
  }

  lemma OneMoreChanged(cfg: Config, u: User, lines: seq<string>, syms: seq<string>, n: nat)
    requires WellFormed(cfg) && n < |syms| && syms[n] in cfg.syms
    ensures ChangedAmong(cfg, u, lines, syms[..n + 1]) ==
            ChangedAmong(cfg, u, lines, syms[..n]) +
            if Changed(cfg, u, syms[n], OldVal(cfg, lines, syms[n])) then {syms[n]} else {}
  {}

  /** Whether the value of `s` is new. */
  method IsChanged(k: Kconfig, s: string, oldVal: Option<string>) returns (changed: bool)
    requires k.Valid() && s in k.config.syms
    modifies k`cachedVis, k`cachedTri, k`cachedStr, k`cachedAssignable, k`cachedSelection
    ensures k.Valid() && k.State() == old(k.State()) && changed == Changed(k.config, k.State(), s, oldVal)
  {
    hide Kconfig.Valid, Kconfig.State, Kconfig.Caches, Kconfig.Linked, WellFormed, UserOk, Justified, SymStr, Grows;
    var t := k.ReadText(s);
    if t.write {
      changed := !(oldVal.None? && k.config.syms[s].kind.Logical() && t.val == "n") && oldVal != Some(t.val);
    } else {
      changed := oldVal.Some?;
    }
  }

  method TouchChanged(k: Kconfig, gone: set<string>, oldVals: map<string, string>, ghost lines: seq<string>)
    returns (touched: set<string>)
    requires k.Valid() && k.Ready()
    requires forall s :: s in k.config.syms ==> Get(oldVals, s) == OldVal(k.config, lines, s)
    modifies k`cachedVis, k`cachedTri, k`cachedStr, k`cachedAssignable, k`cachedSelection
    ensures k.Valid() && touched == gone + ChangedAmong(k.config, k.State(), lines, k.config.symOrder)
  {
    k.ValidParts();
    hide Kconfig.Valid, Kconfig.State, Kconfig.Caches, Kconfig.Linked, WellFormed, UserOk, Justified, SymStr, OldVal,
         Grows, ChangedAmong, Changed;
    touched := gone;
    ghost var cfg, u := k.config, k.State();
    NoneChanged(cfg, u, lines);
    for n := 0 to |k.config.symOrder|
      invariant k.Valid() && k.State() == u
      invariant touched == gone + ChangedAmong(cfg, u, lines, cfg.symOrder[..n])
    {
      var s := k.config.symOrder[n];
      assert s in cfg.symOrder;
      OneMoreChanged(cfg, u, lines, cfg.symOrder, n);
      var changed := IsChanged(k, s, Get(oldVals, s));
      if changed { touched := touched + {s}; }
    }
    assert cfg.symOrder[..|cfg.symOrder|] == cfg.symOrder;
  }

  lemma NoneChanged(cfg: Config, u: User, lines: seq<string>)
    requires WellFormed(cfg)
    ensures ChangedAmong(cfg, u, lines, []) == {}
  {}

  /** The entry of `s`, unless it is n. */
  method OldValEntry(k: Kconfig, s: string) returns (line: Option<string>)
    requires k.Valid() && s in k.config.syms
    modifies k`cachedVis, k`cachedTri, k`cachedStr, k`cachedAssignable, k`cachedSelection
    ensures k.Valid() && k.State() == old(k.State())
    ensures line == if s in AutoKept(k.config, k.State()) then ConfigLine(k.config, k.State(), s) else None
  {
    k.ValidParts();
    hide Kconfig.Valid, Kconfig.State, Kconfig.Caches, Kconfig.Linked, WellFormed, UserOk, Justified, ConfigLine,
         SymStr, SymTri, Grows, AutoKept;
    KeptByValue(k.config, k.State(), s);
    if k.config.syms[s].kind.Logical() {
      var t := k.ReadTri(s);
      if t == 0 { return None; }
    }
    line := k.ConfigString(s);
  }

  method WriteOldVals(k: Kconfig) returns (lines: seq<string>)
    requires k.Valid() && k.Ready()
    modifies k`cachedVis, k`cachedTri, k`cachedStr, k`cachedAssignable, k`cachedSelection
    ensures k.Valid() && lines == AutoConfLines(k.config, k.State())
  {
    k.ValidParts();
    hide Kconfig.Valid, Kconfig.State, Kconfig.Caches, Kconfig.Linked, WellFormed, UserOk, Justified, ConfigLine,
         SymStr, SymTri, Grows, AutoKept, NewVal, EntriesOf;
    lines := [];
    ghost var u := k.State();
    NoEntries(k.config, u);
    for n := 0 to |k.config.symOrder|
      invariant k.Valid() && k.State() == u
      invariant lines == EntriesOf(k.config, u, k.config.symOrder[..n], AutoKept(k.config, u))
    {
      var s := k.config.symOrder[n];
      assert s in k.config.symOrder;
      OneMoreEntry(k.config, u, k.config.symOrder, n);
      var line := OldValEntry(k, s);
      if line.Some? { lines := lines + [line.value]; }
    }
    assert k.config.symOrder[..|k.config.symOrder|] == k.config.symOrder;
  }

  lemma NoEntries(cfg: Config, u: User)
    requires WellFormed(cfg)
    ensures EntriesOf(cfg, u, [], AutoKept(cfg, u)) == []
  {}

  lemma KeptByValue(cfg: Config, u: User, s: string)
    requires WellFormed(cfg) && s in cfg.syms
    ensures s in AutoKept(cfg, u) <==> !(cfg.syms[s].kind.Logical() && SymTri(cfg, u, s).val == 0)
  {
    hide WellFormed, SymTri, SymStr;
    if cfg.syms[s].kind.Logical() { LogicalText(cfg, u, s); }
  }

  lemma AllChanged(cfg: Config, u: User, known: set<string>, lines: seq<string>)
    requires WellFormed(cfg) && Ordered(cfg)
    ensures Touched(cfg, u, known, lines) == Gone(lines, known) + ChangedAmong(cfg, u, lines, cfg.symOrder)
  {}

  lemma LogicalText(cfg: Config, u: User, s: string)
    requires WellFormed(cfg) && s in cfg.syms && cfg.syms[s].kind.Logical()
    ensures SymStr(cfg, u, s).val == "n" <==> SymTri(cfg, u, s).val == 0
  {}

  /** Which symbols have an entry in auto.conf: those that are written, but for logical ones that are n. */
  lemma WhoIsRecorded(cfg: Config, u: User, s: string)
    requires WellFormed(cfg) && Ordered(cfg) && s in cfg.syms
    ensures NewVal(cfg, u, s).Some? <==>
            SymStr(cfg, u, s).write && !(cfg.syms[s].kind.Logical() && SymTri(cfg, u, s).val == 0)
    ensures NewVal(cfg, u, s).Some? ==>
              NewVal(cfg, u, s).value == SymStr(cfg, u, s).val &&
              ConfigLine(cfg, u, s).Some? && ConfigLine(cfg, u, s).value in AutoConfLines(cfg, u)
  {
    hide WellFormed, SymStr, SymTri, EntriesOf, EntryOf;
    if cfg.syms[s].kind.Logical() { LogicalText(cfg, u, s); }
    if NewVal(cfg, u, s).Some? { EntryIsThere(cfg, u, cfg.symOrder, s); }
  }

  // Exactness

  /** The line of an entry records its value. */
  lemma EntryRecords(cfg: Config, u: User, s: string)
    requires WellFormed(cfg) && s in cfg.syms && NameOk(s) && NewVal(cfg, u, s).Some?
    ensures ConfigLine(cfg, u, s).Some?
    ensures var m := SetMatch(ConfigLine(cfg, u, s).value);
            m.Some? && m.value.0 == s && Recorded(cfg, s, m.value.1) == NewVal(cfg, u, s)
  {
    hide WellFormed, SymStr, SetMatch, Escape, Unescape, UntilQuote, NameOk;
    var kind, val := cfg.syms[s].kind, SymStr(cfg, u, s).val;
    if kind == Str {
      var text := "\"" + Escape(val) + "\"";
      SetMatchEntry(s, text);
      assert EntryOf(kind, s, val) == PREFIX + s + "=" + text;
      QuotingRoundTrip(val, "");
      assert text + "" == text;
    } else {
      SetMatchEntry(s, val);
    }
  }

  /** Reading auto.conf back gives exactly the entries that were written. */
  lemma {:induction false} OldIsNew(cfg: Config, u: User, n: nat, s: string)
    requires WellFormed(cfg) && Ordered(cfg) && n <= |cfg.symOrder| && forall x :: x in cfg.syms ==> NameOk(x)
    ensures OldVal(cfg, EntriesOf(cfg, u, cfg.symOrder[..n], AutoKept(cfg, u)), s) ==
            if s in cfg.symOrder[..n] then NewVal(cfg, u, s) else None
  {
    if n > 0 {
      var x := cfg.symOrder[n - 1];
      assert x in cfg.symOrder && x !in cfg.symOrder[..n - 1];
      hide WellFormed, NameOk, SetMatch, Recorded, NewVal, EntriesOf, OldVal, Ordered, AutoKept, ConfigLine;
      OldIsNew(cfg, u, n - 1, s);
      assert cfg.symOrder[..n] == cfg.symOrder[..n - 1] + [x];
      var before := EntriesOf(cfg, u, cfg.symOrder[..n - 1], AutoKept(cfg, u));
      OneMoreEntry(cfg, u, cfg.symOrder, n - 1);
      if NewVal(cfg, u, x).Some? {
        EntryRecords(cfg, u, x);
        LastRecorded(cfg, before, ConfigLine(cfg, u, x).value, s);
      }
    }
  }

  /** One more symbol adds its entry, if it has one. */
  lemma OneMoreEntry(cfg: Config, u: User, syms: seq<string>, n: nat)
    requires WellFormed(cfg) && n < |syms| && syms[n] in cfg.syms
    ensures var before := EntriesOf(cfg, u, syms[..n], AutoKept(cfg, u));
            EntriesOf(cfg, u, syms[..n + 1], AutoKept(cfg, u)) ==
            if NewVal(cfg, u, syms[n]).Some? then before + [ConfigLine(cfg, u, syms[n]).value] else before
    ensures NewVal(cfg, u, syms[n]).Some? ==> ConfigLine(cfg, u, syms[n]).Some?
    ensures NewVal(cfg, u, syms[n]).Some? <==> syms[n] in AutoKept(cfg, u) && ConfigLine(cfg, u, syms[n]).Some?
  {
    hide WellFormed, SymStr, EntryOf;
    assert syms[..n + 1][..n] == syms[..n];
  }

  lemma LastRecorded(cfg: Config, before: seq<string>, line: string, s: string)
    ensures var m := SetMatch(line);
            OldVal(cfg, before + [line], s) ==
            if m.Some? && m.value.0 == s && Recorded(cfg, s, m.value.1).Some? then Recorded(cfg, s, m.value.1)
            else OldVal(cfg, before, s)
  {
    hide SetMatch, Recorded;
    assert (before + [line])[..|before|] == before;
  }

  lemma AutoConfReads(cfg: Config, u: User, s: string)
    requires WellFormed(cfg) && Ordered(cfg) && (forall x :: x in cfg.syms ==> NameOk(x)) && s in cfg.syms
    ensures OldVal(cfg, AutoConfLines(cfg, u), s) == NewVal(cfg, u, s)
  {
    OldIsNew(cfg, u, |cfg.symOrder|, s);
    assert cfg.symOrder[..|cfg.symOrder|] == cfg.symOrder;
  }

  /** Every line of auto.conf names a defined symbol. */
  lemma {:induction false} NothingGone(cfg: Config, u: User, syms: seq<string>, known: set<string>)
    requires WellFormed(cfg) && (forall x :: x in cfg.syms ==> NameOk(x) && x in known)
    requires forall x :: x in syms ==> x in cfg.syms
    ensures Gone(EntriesOf(cfg, u, syms, AutoKept(cfg, u)), known) == {}
    decreases |syms|
  {
    hide WellFormed, NameOk, SetMatch, Recorded, SymStr, EntryOf;
    if syms != [] {
      var x := syms[|syms| - 1];
      NothingGone(cfg, u, syms[..|syms| - 1], known);
      assert x in syms;
      if NewVal(cfg, u, x).Some? { EntryRecords(cfg, u, x); }
    }
  }

  lemma {:induction false} EntryOfSome(cfg: Config, u: User, syms: seq<string>, line: string) returns (s: string)
    requires WellFormed(cfg) && line in EntriesOf(cfg, u, syms, AutoKept(cfg, u))
    ensures s in syms && s in cfg.syms && NewVal(cfg, u, s).Some? && ConfigLine(cfg, u, s) == Some(line)
    decreases |syms|
  {
    hide WellFormed, SymStr, EntryOf;
    s := syms[|syms| - 1];
    if line in EntriesOf(cfg, u, syms[..|syms| - 1], AutoKept(cfg, u)) {
      s := EntryOfSome(cfg, u, syms[..|syms| - 1], line);
    }
  }

  lemma {:induction false} EntryIsThere(cfg: Config, u: User, syms: seq<string>, s: string)
    requires WellFormed(cfg) && s in syms && NewVal(cfg, u, s).Some?
    ensures ConfigLine(cfg, u, s).Some? && ConfigLine(cfg, u, s).value in EntriesOf(cfg, u, syms, AutoKept(cfg, u))
    decreases |syms|
  {
    hide WellFormed, SymStr, EntryOf;
    if s in syms[..|syms| - 1] { EntryIsThere(cfg, u, syms[..|syms| - 1], s); }
    else { assert s == syms[|syms| - 1]; }
  }

  /** The entry of `s` has a line that names a key symbol. */
  ghost predicate NamesKey(cfg: Config, u: User, s: string)
    requires WellFormed(cfg)
  {
    && s in cfg.syms && NewVal(cfg, u, s).Some?
    && exists line :: line in SplitLines(EntryOf(cfg.syms[s].kind, s, NewVal(cfg, u, s).value)) && Fails(cfg, line)
  }

  lemma EntryIsValue(cfg: Config, u: User, s: string)
    requires WellFormed(cfg) && s in cfg.syms && NewVal(cfg, u, s).Some?
    ensures ConfigLine(cfg, u, s) == Some(EntryOf(cfg.syms[s].kind, s, NewVal(cfg, u, s).value))
  {
    hide WellFormed, SymStr, EntryOf;
  }

  /** The next run raises an error if and only if the entry of some symbol has a line that names a
      key symbol. */
  lemma SyncFails(cfg: Config, u0: User)
    requires WellFormed(cfg) && Ordered(cfg)
    ensures (exists line :: line in SplitLines(AutoConf(cfg, u0)) && Fails(cfg, line)) <==>
            exists s :: NamesKey(cfg, u0, s)
  {
    hide WellFormed, NewVal, ConfigLine, EntriesOf, EntryOf, SplitLines, JoinLines, Fails;
    var entries := AutoConfLines(cfg, u0);
    if line :| line in SplitLines(AutoConf(cfg, u0)) && Fails(cfg, line) {
      FailsOnText(cfg, line);
      LinesOfAll(entries, line);
      var e :| e in entries && line in SplitLines(e);
      var s := EntryOfSome(cfg, u0, cfg.symOrder, e);
      EntryIsValue(cfg, u0, s);
      assert NamesKey(cfg, u0, s);
    }
    if s :| NamesKey(cfg, u0, s) {
      EntryIsThere(cfg, u0, cfg.symOrder, s);
      EntryIsValue(cfg, u0, s);
      var e := ConfigLine(cfg, u0, s).value;
      var line :| line in SplitLines(e) && Fails(cfg, line);
      FailsOnText(cfg, line);
      LinesOfAll(entries, line);
    }
  }

  lemma FailsOnText(cfg: Config, line: string)
    requires Fails(cfg, line)
    ensures line != []
  {}

  /** The entry of a key symbol names it on its first line. */
  lemma KeyNamesItself(cfg: Config, u: User, s: string)
    requires WellFormed(cfg) && s in cfg.syms && cfg.syms[s].kind == Key && NewVal(cfg, u, s).Some?
    requires NameOk(s) && OneLine(s)
    ensures NamesKey(cfg, u, s)
  {
    hide WellFormed, NewVal, SetMatch, SplitLines;
    var val := NewVal(cfg, u, s).value;
    var i := NextBreak(val);
    FirstLineOf(PREFIX + s + "=", val);
    SetMatchEntry(s, val[..i]);
    assert Fails(cfg, PREFIX + s + "=" + val[..i]);
  }

  lemma FirstLineOf(a: string, b: string)
    requires OneLine(a) && a != []
    ensures a + b[..NextBreak(b)] in SplitLines(a + b)
  {
    BreakLater(a, b);
    var n := |a| + NextBreak(b);
    assert (a + b)[..n] == a + b[..NextBreak(b)];
    assert SplitLines(a + b)[0] == (a + b)[..n];
  }

  lemma {:induction false} BreakLater(a: string, b: string)
    requires OneLine(a)
    ensures NextBreak(a + b) == |a| + NextBreak(b)
  {
    if a == [] {
      assert a + b == b;
    } else {
      assert a[0] in a && forall c :: c in a[1..] ==> c in a;
      assert (a + b)[1..] == a[1..] + b;
      BreakLater(a[1..], b);
    }
  }

  /** An entry on one line names its own symbol only. */
  lemma OneLineNames(cfg: Config, u: User, s: string)
    requires WellFormed(cfg) && s in cfg.syms && NewVal(cfg, u, s).Some? && NameOk(s)
    requires OneLine(EntryOf(cfg.syms[s].kind, s, NewVal(cfg, u, s).value))
    ensures NamesKey(cfg, u, s) <==> cfg.syms[s].kind == Key
  {
    hide WellFormed, NewVal, ConfigLine, EntryOf, SplitLines, SetMatch, OneLine, NameOk, Recorded;
    EntryIsValue(cfg, u, s);
    EntryRecords(cfg, u, s);
    var e := EntryOf(cfg.syms[s].kind, s, NewVal(cfg, u, s).value);
    MatchedIsText(e);
    LinesOfOneLine(e);
    assert Fails(cfg, e) <==> cfg.syms[s].kind == Key;
  }

  lemma MatchedIsText(line: string)
    requires SetMatch(line).Some?
    ensures line != []
  {}

  // Line breaks

  ghost predicate AllOneLine(lines: seq<string>) { forall line :: line in lines ==> OneLine(line) }

  lemma {:induction false} UntilQuoteOneLine(s: string)
    requires OneLine(s) && UntilQuote(s).Some?
    ensures OneLine(UntilQuote(s).value)
  {
    if s != [] && s[0] != '"' {
      var n := if s[0] == '\\' then 2 else 1;
      assert OneLine(s[..n]) && OneLine(s[n..]);
      UntilQuoteOneLine(s[n..]);
      assert s[..1] == [s[0]];
    }
  }

  lemma {:induction false} UnescapeOneLine(s: string)
    requires OneLine(s)
    ensures OneLine(Unescape(s))
  {
    if s != [] {
      var n := if s[0] == '\\' && |s| > 1 && s[1] != '\n' then 2 else 1;
      assert OneLine(s[n..]);
      UnescapeOneLine(s[n..]);
    }
  }

  /** Nothing recorded on a line contains a line break. */
  lemma RecordedOneLine(cfg: Config, line: string)
    requires OneLine(line) && SetMatch(line).Some?
    ensures var (s, val) := SetMatch(line).value;
            OneLine(s) && (Recorded(cfg, s, val).Some? ==> OneLine(Recorded(cfg, s, val).value))
  {
    var (s, val) := SetMatch(line).value;
    assert OneLine(s) && OneLine(val);
    if s in cfg.syms && cfg.syms[s].kind == Str && QuotedMatch(val).Some? {
      assert OneLine(val[1..]);
      UntilQuoteOneLine(val[1..]);
      UnescapeOneLine(QuotedMatch(val).value);
    }
  }

  lemma {:induction false} OldValOneLine(cfg: Config, lines: seq<string>, s: string)
    requires AllOneLine(lines) && OldVal(cfg, lines, s).Some?
    ensures OneLine(s) && OneLine(OldVal(cfg, lines, s).value)
  {
    hide SetMatch, Recorded, OneLine;
    var n := |lines| - 1;
    var m := SetMatch(lines[n]);
    if m.Some? { RecordedOneLine(cfg, lines[n]); }
    if !(m.Some? && m.value.0 == s && Recorded(cfg, s, m.value.1).Some?) { OldValOneLine(cfg, lines[..n], s); }
  }

  lemma {:induction false} EscapeOneLine(s: string)
    requires OneLine(s)
    ensures OneLine(Escape(s))
  {
    if s != [] {
      assert s == [s[0]] + s[1..];
      EscapeByChar(s[0], s[1..]);
      EscapeOneLine(s[1..]);
      hide Escape;
      assert s[0] in s;
    }
  }

  /** An entry has a line break only if the name or the value has. */
  lemma EntryOneLine(kind: Kind, s: string, val: string)
    requires OneLine(s) && OneLine(val)
    ensures OneLine(EntryOf(kind, s, val))
  {
    EscapeOneLine(val);
    hide Escape;
    assert OneLine(PREFIX) && OneLine(NOT_SET) && OneLine("# ") && OneLine("=\"") && OneLine("\"") && OneLine("=");
  }

  /** A symbol whose value has a line break is touched by every sync. */
  lemma BrokenIsTouched(cfg: Config, u: User, known: set<string>, text: string, s: string)
    requires WellFormed(cfg) && s in cfg.syms && NewVal(cfg, u, s).Some?
    requires !(OneLine(s) && OneLine(NewVal(cfg, u, s).value))
    ensures s in Touched(cfg, u, known, SplitLines(text))
  {
    hide WellFormed, SymStr, OldVal, OneLine, SplitLines, Gone;
    var lines := SplitLines(text);
    SplitOneLine(text);
    if OldVal(cfg, lines, s).Some? { OldValOneLine(cfg, lines, s); }
  }

  /** If some entry of auto.conf has a line break, a symbol is touched although nothing changed. */
  lemma BrokenEntry(cfg: Config, u: User, known: set<string>, line: string)
    requires WellFormed(cfg) && Ordered(cfg) && line in AutoConfLines(cfg, u) && !OneLine(line)
    ensures Touched(cfg, u, known, SplitLines(AutoConf(cfg, u))) != {}
  {
    assert forall x :: x in cfg.symOrder ==> x in cfg.syms;
    hide WellFormed, Touched, AutoConf, EntriesOf, OneLine, SplitLines, Ordered;
    var s := EntryOfSome(cfg, u, cfg.symOrder, line);
    EntryIsValue(cfg, u, s);
    if OneLine(s) && OneLine(NewVal(cfg, u, s).value) { EntryOneLine(cfg.syms[s].kind, s, NewVal(cfg, u, s).value); }
    BrokenIsTouched(cfg, u, known, AutoConf(cfg, u), s);
  }

  /** If auto.conf was written when the user state was `u0`, then every later sync touches exactly the
      symbols whose entry appeared, vanished or changed, and a sync with unchanged values touches
      nothing, if and only if no entry contained a line break. In that case it raises an error instead
      if and only if a key symbol had an entry. */
  lemma SyncExact(cfg: Config, u0: User, known: set<string>)
    requires WellFormed(cfg) && Ordered(cfg) && forall x :: x in cfg.syms ==> NameOk(x) && x in known
    ensures var lines := SplitLines(AutoConf(cfg, u0));
            && ((forall u :: Touched(cfg, u, known, lines) ==
                               set s | s in cfg.syms && NewVal(cfg, u0, s) != NewVal(cfg, u, s)) <==>
                AllOneLine(AutoConfLines(cfg, u0)))
            && (Touched(cfg, u0, known, lines) == {} <==> AllOneLine(AutoConfLines(cfg, u0)))
            && (AllOneLine(AutoConfLines(cfg, u0)) ==>
                  ((exists line :: line in lines && Fails(cfg, line)) <==>
                   exists s :: s in cfg.syms && cfg.syms[s].kind == Key && NewVal(cfg, u0, s).Some?))
  {
    hide WellFormed, NameOk, Touched, AutoConfLines, Fails, NewVal, OneLine, SplitLines, JoinLines, Ordered;
    var entries := AutoConfLines(cfg, u0);
    var lines := SplitLines(AutoConf(cfg, u0));
    if AllOneLine(entries) {
      SplitJoin(entries);
      OneLineFails(cfg, u0);
      forall u
        ensures Touched(cfg, u, known, lines) == set s | s in cfg.syms && NewVal(cfg, u0, s) != NewVal(cfg, u, s)
      {
        OneSync(cfg, u0, u, known);
      }
    } else {
      var line :| line in entries && !OneLine(line);
      BrokenEntry(cfg, u0, known, line);
    }
    assert (set s | s in cfg.syms && NewVal(cfg, u0, s) != NewVal(cfg, u0, s)) == {};
  }

  /** Without line breaks, only the entries of key symbols name key symbols. */
  lemma OneLineFails(cfg: Config, u0: User)
    requires WellFormed(cfg) && Ordered(cfg) && forall x :: x in cfg.syms ==> NameOk(x)
    requires AllOneLine(AutoConfLines(cfg, u0))
    ensures (exists line :: line in SplitLines(AutoConf(cfg, u0)) && Fails(cfg, line)) <==>
            exists s :: s in cfg.syms && cfg.syms[s].kind == Key && NewVal(cfg, u0, s).Some?
  {
    hide WellFormed, NameOk, NewVal, ConfigLine, EntriesOf, EntryOf, SplitLines, AutoConf, Fails, OneLine, NamesKey;
    SyncFails(cfg, u0);
    forall s | s in cfg.syms && NewVal(cfg, u0, s).Some?
      ensures NamesKey(cfg, u0, s) <==> cfg.syms[s].kind == Key
    {
      EntryIsThere(cfg, u0, cfg.symOrder, s);
      EntryIsValue(cfg, u0, s);
      OneLineNames(cfg, u0, s);
    }
    NamesKeyMeans(cfg, u0);
  }

  lemma NamesKeyMeans(cfg: Config, u: User)
    requires WellFormed(cfg)
    ensures forall s :: NamesKey(cfg, u, s) ==> s in cfg.syms && NewVal(cfg, u, s).Some?
  {}

  /** Entries of logical symbols are never n. */
  lemma ChangedMeans(cfg: Config, u0: User, u: User, s: string)
    requires WellFormed(cfg) && s in cfg.syms
    ensures Changed(cfg, u, s, NewVal(cfg, u0, s)) <==> NewVal(cfg, u0, s) != NewVal(cfg, u, s)
  {
    hide WellFormed, SymStr;
  }

  lemma OneSync(cfg: Config, u0: User, u: User, known: set<string>)
    requires WellFormed(cfg) && Ordered(cfg) && forall x :: x in cfg.syms ==> NameOk(x) && x in known
    ensures Touched(cfg, u, known, AutoConfLines(cfg, u0)) ==
            set s | s in cfg.syms && NewVal(cfg, u0, s) != NewVal(cfg, u, s)
  {
    assert forall x :: x in cfg.symOrder ==> x in cfg.syms;
    NothingGone(cfg, u0, cfg.symOrder, known);
    hide WellFormed, NameOk, OldVal, Gone, EntriesOf, NewVal, Changed, AutoKept, Ordered;
    forall s | s in cfg.syms
      ensures Changed(cfg, u, s, OldVal(cfg, AutoConfLines(cfg, u0), s)) <==> NewVal(cfg, u0, s) != NewVal(cfg, u, s)
    {
      AutoConfReads(cfg, u0, s);
      ChangedMeans(cfg, u0, u, s);
    }
  }
}
