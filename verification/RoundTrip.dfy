/** Loading what was written brings every value back: for full and for minimal configurations. */
module KconfigRoundTrip {
  import opened Basics
  import opened KconfigModel
  import opened KconfigValues
  import opened KconfigCaches
  import opened KconfigReassignment
  import opened KconfigAssignments
  import opened KconfigLaws
  import opened KconfigText

  // What is asked of the configuration

  predicate NameOk(s: string) {
    s != "" && forall k :: 0 <= k < |s| ==> s[k] != '=' && s[k] != ' '
  }

  /** What loading makes of a value: keys are cut at the first other character. */
  function Read(kind: Kind, val: string): string {
    if kind == Key then KeyPrefix(val) else val
  }

  /** Lines lose trailing blanks, so numbers must not end in one. */
  predicate Carried(kind: Kind, val: string) {
    kind.Numeric() && val != "" ==> !Blank(val[|val| - 1])
  }

  ghost predicate Writable(cfg: Config, u: User)
    requires WellFormed(cfg)
  {
    && Ordered(cfg)
    && Modules(cfg, u) == 0
    && (forall c :: c in cfg.choices ==> !cfg.choices[c].optional)
    && (forall s :: s in cfg.syms ==> NameOk(s) && !cfg.syms[s].hidden)
    && (forall s :: s in cfg.syms && SymStr(cfg, u, s).write ==> Carried(cfg.syms[s].kind, SymStr(cfg, u, s).val))
  }

  // With modules off nothing is m

  lemma PlainMode(cfg: Config, u: User, c: nat, user: Option<Tri>)
    requires WellFormed(cfg) && c in cfg.choices && Modules(cfg, u) == 0 && !cfg.choices[c].optional
    ensures ModeWith(cfg, u, c, user) == if ChoiceVis(cfg, u, c) == 0 then 0 else 2
  {}

  lemma NoMVisibility(cfg: Config, u: User, s: string)
    requires WellFormed(cfg) && s in cfg.syms && Modules(cfg, u) == 0
    ensures SymVis(cfg, u, s) != 1
    ensures cfg.syms[s].kind.Logical() ==> ActsAsBool(cfg, u, s)
  {}

  lemma NoMValue(cfg: Config, u: User, s: string)
    requires WellFormed(cfg) && s in cfg.syms && Modules(cfg, u) == 0
    ensures SymTri(cfg, u, s).val != 1
  {
    NoMVisibility(cfg, u, s);
    assert SymTri(cfg, u, s) == SymTriWith(cfg, u, s, u.TriOf(s));
    hide WellFormed, Modules, SymVis, ActsAsBool, PickTri, Eval, Selection;
  }

  /** The y symbol of a choice is its selection. */
  lemma SelectedIsY(cfg: Config, u: User, c: nat, m: string)
    requires WellFormed(cfg) && c in cfg.choices && m in cfg.choices[c].syms && Modules(cfg, u) == 0
    ensures SymTri(cfg, u, m).val == 2 <==> Selection(cfg, u, c) == Some(m)
    ensures Selection(cfg, u, c) == Some(m) ==> SymTri(cfg, u, m).write
  {
    MemberValue(cfg, u, c, m);
    NoMVisibility(cfg, u, m);
    if Mode(cfg, u, c) == 2 { SelectionFound(cfg, u, c); }
    hide WellFormed, Modules, SymVis, SymTri, Mode, DefaultFrom;
    assert Mode(cfg, u, c) != 2 ==> Selection(cfg, u, c) == None;
  }

  // What loading an entry assigns

  function Wanted(cfg: Config, u: User, s: string): UserValue
    requires WellFormed(cfg) && s in cfg.syms
  {
    if cfg.syms[s].kind.Logical() then UserTri(SymTri(cfg, u, s).val)
    else UserText(Read(cfg.syms[s].kind, SymStr(cfg, u, s).val))
  }

  /** The user value `s` has after its entry, if any, was loaded. */
  function Expected(cfg: Config, u: User, s: string): Option<UserValue>
    requires WellFormed(cfg) && s in cfg.syms
  {
    if SymStr(cfg, u, s).write && ValidFor(cfg, cfg.syms[s].kind, Wanted(cfg, u, s)) then Some(Wanted(cfg, u, s))
    else None
  }

  lemma SetMatchEntry(s: string, val: string)
    requires NameOk(s)
    ensures SetMatch(PREFIX + s + "=" + val) == Some((s, val))
  {
    var line := PREFIX + s + "=" + val;
    var rest := line[|PREFIX|..];
    assert rest == s + "=" + val;
    assert rest[|s|] == '=';
    assert forall k :: 0 <= k < |s| ==> rest[k] == s[k];
    assert Find(rest, '=') == |s|;
    assert rest[..|s|] == s && rest[|s| + 1..] == val;
  }

  lemma UnsetMatchEntry(s: string)
    requires NameOk(s)
    ensures var line := "# " + PREFIX + s + NOT_SET;
            SetMatch(line) == None && UnsetMatch(line) == Some(s) && RStrip(line) == line
  {
    var line := "# " + PREFIX + s + NOT_SET;
    assert line[0] == '#' && PREFIX[0] == 'C';
    assert "# " + PREFIX <= line;
    var rest := line[|PREFIX| + 2..];
    assert rest == s + NOT_SET;
    assert rest[|s|] == ' ';
    assert forall k :: 0 <= k < |s| ==> rest[k] == s[k];
    assert Find(rest, ' ') == |s|;
    assert rest[..|s|] == s && rest[|s|..] == NOT_SET;
    assert line[|line| - 1] == 't';
  }

  /** Exactly the values made of key characters survive. */
  lemma {:induction false} KeyPrefixWhole(s: string)
    ensures KeyPrefix(s) == s <==> forall k :: 0 <= k < |s| ==> KeyChar(s[k])
  {
    if s != [] {
      assert forall k :: 0 <= k < |s[1..]| ==> s[1..][k] == s[k + 1];
      KeyPrefixWhole(s[1..]);
      assert [s[0]] + s[1..] == s;
      if KeyChar(s[0]) {
        assert ([s[0]] + KeyPrefix(s[1..]))[1..] == KeyPrefix(s[1..]);
        assert (forall k :: 0 <= k < |s| ==> KeyChar(s[k])) ==> forall k :: 0 <= k < |s[1..]| ==> KeyChar(s[1..][k]);
        assert (forall k :: 0 <= k < |s[1..]| ==> KeyChar(s[1..][k])) ==>
          forall k :: 0 <= k < |s| ==> KeyChar(s[k]) by {
          assert forall k :: 0 < k < |s| ==> s[k] == s[1..][k - 1];
        }
      }
    }
  }

  lemma {:induction false} KeyPrefixUnescaped(s: string)
    ensures Unescape(KeyPrefix(s)) == KeyPrefix(s)
  {
    if s != [] && KeyChar(s[0]) {
      KeyPrefixUnescaped(s[1..]);
      assert KeyPrefix(s)[1..] == KeyPrefix(s[1..]);
    }
  }

  lemma {:induction false} RStripOver(s: string, t: string)
    requires s != [] && !Blank(s[|s| - 1])
    ensures RStrip(s + t) == s + RStrip(t)
    decreases |t|
  {
    if t == [] {
      assert s + t == s;
    } else {
      assert (s + t)[..|s + t| - 1] == s + t[..|t| - 1];
      if Blank(t[|t| - 1]) { RStripOver(s, t[..|t| - 1]); }
    }
  }

  /** Blanks at the end do not matter to a key: they would be cut off anyway. */
  lemma {:induction false} KeyPrefixRStrip(t: string)
    ensures KeyPrefix(RStrip(t)) == KeyPrefix(t)
  {
    if t != [] && Blank(t[|t| - 1]) {
      KeyPrefixRStrip(t[..|t| - 1]);
      KeyPrefixEnds(t[..|t| - 1], t[|t| - 1]);
      assert t[..|t| - 1] + [t[|t| - 1]] == t;
    }
  }

  lemma {:induction false} KeyPrefixEnds(t: string, c: char)
    requires !KeyChar(c)
    ensures KeyPrefix(t + [c]) == KeyPrefix(t)
  {
    if t == [] {
      assert t + [c] == [c];
    } else {
      assert (t + [c])[1..] == t[1..] + [c];
      KeyPrefixEnds(t[1..], c);
    }
  }

  /** The line written for a value is read as an assignment of that value, or of its key part. */
  lemma EntryLoads(cfg: Config, st: Session, s: string, val: string)
    requires s in cfg.syms && NameOk(s) && Carried(cfg.syms[s].kind, val) && cfg.syms[s].kind != Unknown
    requires cfg.syms[s].kind.Logical() ==> val == "n" || val == "m" || val == "y"
    ensures LoadLine(cfg, st, EntryOf(cfg.syms[s].kind, s, val)) ==
              match cfg.syms[s].kind
              case Bool => if val == "m" then st else LoadTri(cfg, st, s, TriOfChar(val[0]))
              case Tristate => LoadTri(cfg, st, s, TriOfChar(val[0]))
              case _ => SetSym(cfg, st, s, UserText(Read(cfg.syms[s].kind, val))).0
  {
    hide SetSym, SetMatch, UnsetMatch, Escape, Unescape, RStrip, KeyPrefix;
    var kind := cfg.syms[s].kind;
    var line := EntryOf(kind, s, val);
    if kind.Logical() && val == "n" {
      UnsetMatchEntry(s);
    } else if kind == Str {
      var text := "\"" + Escape(val) + "\"";
      StrippedEntry(s, text);
      assert line == PREFIX + s + "=" + text;
      QuotingRoundTrip(val, "");
      assert text + "" == text;
    } else {
      StrippedEntry(s, val);
      if kind == Key {
        KeyPrefixUnescaped(val);
        KeyPrefixRStrip(val);
      }
    }
  }

  lemma StrippedEntry(s: string, val: string)
    requires NameOk(s)
    ensures SetMatch(RStrip(PREFIX + s + "=" + val)) == Some((s, RStrip(val)))
    ensures val == "" || !Blank(val[|val| - 1]) ==> RStrip(val) == val
  {
    var head := PREFIX + s + "=";
    assert head[|head| - 1] == '=';
    RStripOver(head, val);
    SetMatchEntry(s, RStrip(val));
  }

  /** Setting a symbol that has no value yet. */
  lemma FirstSet(cfg: Config, st: Session, s: string, w: UserValue)
    requires s in cfg.syms && s !in st.u.val && Normal(cfg.syms[s].kind, w) == w
    ensures var st' := SetSym(cfg, st, s, w).0;
            var valid := ValidFor(cfg, cfg.syms[s].kind, w);
            && (forall x :: Get(st'.u.val, x) == if x != s then Get(st.u.val, x) else if valid then Some(w) else None)
            && (forall c: nat :: st'.u.SelectionOf(c) ==
                  if cfg.syms[s].choice == Some(c) && w == UserTri(2) && valid then Some(s) else st.u.SelectionOf(c))
  {}

  lemma FirstLoadTri(cfg: Config, st: Session, s: string, t: Tri)
    requires s in cfg.syms && s !in st.u.val
    ensures var st' := LoadTri(cfg, st, s, t);
            var valid := ValidFor(cfg, cfg.syms[s].kind, UserTri(t));
            && (forall x :: Get(st'.u.val, x) ==
                  if x != s then Get(st.u.val, x) else if valid then Some(UserTri(t)) else None)
            && (forall c: nat :: st'.u.SelectionOf(c) ==
                  if cfg.syms[s].choice == Some(c) && t == 2 && valid then Some(s) else st.u.SelectionOf(c))
  {
    hide ValidFor, SetSym;
    var c := cfg.syms[s].choice;
    var st1 := if c.Some? && t != 0 then SetMode(cfg, st, c.value, t).0 else st;
    assert st1.u.val == st.u.val && st1.u.sel == st.u.sel;
    FirstSet(cfg, st1, s, UserTri(t));
  }

  lemma EntryAssigns(cfg: Config, u: User, st: Session, s: string)
    requires WellFormed(cfg) && Writable(cfg, u) && s in cfg.syms && s !in st.u.val
    requires ConfigLine(cfg, u, s).Some?
    ensures var st' := LoadLine(cfg, st, ConfigLine(cfg, u, s).value);
            && (forall x :: Get(st'.u.val, x) == if x == s then Expected(cfg, u, s) else Get(st.u.val, x))
            && (forall c: nat :: st'.u.SelectionOf(c) ==
                  if cfg.syms[s].choice == Some(c) && SymTri(cfg, u, s).val == 2 then Some(s) else st.u.SelectionOf(c))
  {
    EntryFacts(cfg, u, s);
    hide WellFormed, Writable, SymTri, SymStr, EntryOf, LoadLine, LoadTri, SetSym, Modules, Carried, ValidFor,
         NameOk, Read;
    EntryLoads(cfg, st, s, SymStr(cfg, u, s).val);
    if cfg.syms[s].kind.Logical() {
      FirstLoadTri(cfg, st, s, SymTri(cfg, u, s).val);
    } else {
      FirstSet(cfg, st, s, Wanted(cfg, u, s));
    }
  }

  lemma EntryFacts(cfg: Config, u: User, s: string)
    requires WellFormed(cfg) && Writable(cfg, u) && s in cfg.syms && ConfigLine(cfg, u, s).Some?
    ensures var d := cfg.syms[s]; var val := SymStr(cfg, u, s).val; var t := SymTri(cfg, u, s).val;
            && SymStr(cfg, u, s).write && d.kind != Unknown && NameOk(s) && Carried(d.kind, val)
            && (d.kind.Logical() ==> t != 1 && val == TriText(t) && TriOfChar(val[0]) == t
                                     && ValidFor(cfg, d.kind, UserTri(t)))
            && (!d.kind.Logical() ==> t == 0 && d.choice.None?)
  {
    assert SymStr(cfg, u, s) == SymStrWith(cfg, u, s, u.TextOf(s));
    assert SymTri(cfg, u, s) == SymTriWith(cfg, u, s, u.TriOf(s));
    NoMValue(cfg, u, s);
    if cfg.syms[s].choice.Some? {
      assert SymOk(cfg, s);
      assert ChoiceOk(cfg, cfg.syms[s].choice.value);
    }
    hide WellFormed, SymTriWith, SymVis, PickStr, SymRange, Modules, Carried;
  }

  lemma UnwrittenExpectsNothing(cfg: Config, u: User, s: string)
    requires WellFormed(cfg) && s in cfg.syms && ConfigLine(cfg, u, s).None?
    ensures Expected(cfg, u, s) == None
    ensures SymTri(cfg, u, s).val != 2
  {
    assert SymStr(cfg, u, s) == SymStrWith(cfg, u, s, u.TextOf(s));
    assert SymTri(cfg, u, s) == SymTriWith(cfg, u, s, u.TriOf(s));
    hide WellFormed, SymVis, PickStr, PickTri, SymRange, Eval, Selection, ActsAsBool;
  }

  /** The user state after loading the entries of `kept` among the first `n` symbols. */
  ghost predicate Loaded(cfg: Config, u: User, kept: set<string>, n: nat, u': User)
    requires WellFormed(cfg) && Ordered(cfg) && n <= |cfg.symOrder|
  {
    && (forall s :: Get(u'.val, s) == if s in cfg.symOrder[..n] && s in kept then Expected(cfg, u, s) else None)
    && (forall c :: c in cfg.choices ==>
          var sel := Selection(cfg, u, c);
          u'.SelectionOf(c) == if sel.Some? && sel.value in cfg.symOrder[..n] && sel.value in kept then sel else None)
  }

  lemma {:induction false} EntriesLoaded(cfg: Config, u: User, kept: set<string>, n: nat)
    requires WellFormed(cfg) && Writable(cfg, u) && n <= |cfg.symOrder|
    ensures Loaded(cfg, u, kept, n,
                   LoadLines(cfg, Session(NO_USER, {}), EntriesOf(cfg, u, cfg.symOrder[..n], kept)).u)
  {
    if n == 0 {
      assert cfg.symOrder[..0] == [];
      hide WellFormed, Writable, Expected, Selection;
    } else {
      EntriesLoaded(cfg, u, kept, n - 1);
      hide WellFormed, Writable, Loaded, ConfigLine, LoadLine;
      var s := cfg.symOrder[n - 1];
      var before := EntriesOf(cfg, u, cfg.symOrder[..n - 1], kept);
      var st := LoadLines(cfg, Session(NO_USER, {}), before);
      OneEntryLoaded(cfg, u, kept, n, st);
      assert cfg.symOrder[..n][..n - 1] == cfg.symOrder[..n - 1];
      if s in kept && ConfigLine(cfg, u, s).Some? {
        var lines := before + [ConfigLine(cfg, u, s).value];
        assert EntriesOf(cfg, u, cfg.symOrder[..n], kept) == lines;
        assert lines[..|lines| - 1] == before;
        assert LoadLines(cfg, Session(NO_USER, {}), lines) == LoadLine(cfg, st, ConfigLine(cfg, u, s).value);
      } else {
        assert EntriesOf(cfg, u, cfg.symOrder[..n], kept) == before + [] == before;
      }
    }
  }

  lemma OneEntryLoaded(cfg: Config, u: User, kept: set<string>, n: nat, st: Session)
    requires WellFormed(cfg) && Writable(cfg, u) && 0 < n <= |cfg.symOrder|
    requires Loaded(cfg, u, kept, n - 1, st.u)
    ensures var s := cfg.symOrder[n - 1];
            Loaded(cfg, u, kept, n,
                   if s in kept && ConfigLine(cfg, u, s).Some? then LoadLine(cfg, st, ConfigLine(cfg, u, s).value).u
                   else st.u)
  {
    hide WellFormed, LoadLine, ConfigLine, Expected, SymTri, Selection, Modules, SymStr, NameOk, Carried;
    var s := cfg.symOrder[n - 1];
    assert cfg.symOrder[..n] == cfg.symOrder[..n - 1] + [s];
    assert s in cfg.symOrder;
    forall c | c in cfg.choices
      ensures Selection(cfg, u, c) == Some(s) <==> cfg.syms[s].choice == Some(c) && SymTri(cfg, u, s).val == 2
    {
      SelectionMember(cfg, u, c, s);
    }
    if ConfigLine(cfg, u, s).None? {
      UnwrittenExpectsNothing(cfg, u, s);
    } else if s in kept {
      assert s !in st.u.val;
      EntryAssigns(cfg, u, st, s);
    }
  }

  lemma SelectionMember(cfg: Config, u: User, c: nat, s: string)
    requires WellFormed(cfg) && Modules(cfg, u) == 0 && c in cfg.choices && s in cfg.syms
    ensures Selection(cfg, u, c) == Some(s) <==> cfg.syms[s].choice == Some(c) && SymTri(cfg, u, s).val == 2
  {
    assert ChoiceOk(cfg, c) && SymOk(cfg, s);
    if s in cfg.choices[c].syms { SelectedIsY(cfg, u, c, s); }
    if Mode(cfg, u, c) == 2 { SelectionFound(cfg, u, c); }
    hide WellFormed, Modules, SymTri, Mode, DefaultFrom;
  }

  // Values stick to what they are

  /** A logical symbol outside choices keeps its value when that value becomes the user's, or when it
      gets no entry. */
  lemma TriSticks(cfg: Config, u: User, s: string)
    requires WellFormed(cfg) && s in cfg.syms && Modules(cfg, u) == 0
    requires cfg.syms[s].kind.Logical() && cfg.syms[s].choice.None?
    ensures var t := SymTri(cfg, u, s);
            SymTriWith(cfg, u, s, if t.write then Some(t.val) else None) == t
  {}

  /** The same for a symbol that is not logical; what is not valid for the kind is not assigned. */
  lemma TextSticks(cfg: Config, u: User, s: string)
    requires WellFormed(cfg) && UserOk(cfg, u) && s in cfg.syms && !cfg.syms[s].kind.Logical() && !cfg.syms[s].hidden
    requires KeyCarries(cfg, u, s)
    ensures var t := SymStr(cfg, u, s); var val := Read(cfg.syms[s].kind, t.val);
            var given := if t.write && ValidFor(cfg, cfg.syms[s].kind, UserText(val)) then Some(val) else None;
            SymStrWith(cfg, u, s, given) == t
  {
    hide WellFormed, SymVis, PickStr, SymRange, KconfigValues.Inside, NumOrZero, Clamp, KeyPrefix;
    assert SymStr(cfg, u, s) == SymStrWith(cfg, u, s, u.TextOf(s));
  }

  /** A key that shows its value in a prompt consists of key characters. */
  predicate KeyCarries(cfg: Config, u: User, s: string)
    requires WellFormed(cfg) && s in cfg.syms
  {
    cfg.syms[s].kind == Key && SymVis(cfg, u, s) != 0 ==>
      Read(Key, SymStr(cfg, u, s).val) == SymStr(cfg, u, s).val
  }

  /** Symbols in choices ignore their own user value, except for the selection. */
  lemma MemberSticks(cfg: Config, u: User, s: string, user: Option<Tri>)
    requires WellFormed(cfg) && s in cfg.syms && Modules(cfg, u) == 0
    requires cfg.syms[s].kind.Logical() && cfg.syms[s].choice.Some?
    ensures SymTriWith(cfg, u, s, user) == SymTri(cfg, u, s)
  {
    NoMVisibility(cfg, u, s);
    hide WellFormed, Modules, SymVis, Selection;
    assert SymTri(cfg, u, s) == SymTriWith(cfg, u, s, u.TriOf(s));
  }

  // When the entries of `kept` are enough

  /** Leaving out the entries not in `kept`, and cutting the keys in it, does no harm to any item
      looked at by itself. */
  ghost predicate Enough(cfg: Config, u: User, kept: set<string>)
    requires WellFormed(cfg)
  {
    && (forall s :: s in cfg.syms && s !in kept && cfg.syms[s].kind.Logical() && cfg.syms[s].choice.None? ==>
          SymTriWith(cfg, u, s, None) == SymTri(cfg, u, s))
    && (forall s :: s in cfg.syms && s !in kept && !cfg.syms[s].kind.Logical() ==>
          SymStrWith(cfg, u, s, None) == SymStr(cfg, u, s))
    && (forall c :: c in cfg.choices && Selection(cfg, u, c).Some? && Selection(cfg, u, c).value !in kept ==>
          SelectionWith(cfg, u, c, None) == Selection(cfg, u, c))
    && (forall s :: s in cfg.syms && s in kept ==> KeyCarries(cfg, u, s))
  }

  lemma SymUnnoticed(cfg: Config, u: User, kept: set<string>, u': User, s: string)
    requires WellFormed(cfg) && UserOk(cfg, u) && Writable(cfg, u) && Enough(cfg, u, kept)
    requires Loaded(cfg, u, kept, |cfg.symOrder|, u') && s in cfg.syms
    ensures SymTriWith(cfg, u, s, u'.TriOf(s)) == SymTri(cfg, u, s)
    ensures SymStrWith(cfg, u, s, u'.TextOf(s)) == SymStr(cfg, u, s)
  {
    hide WellFormed, Loaded, SymVis, PickTri, PickStr, SymRange, Eval, Selection, ActsAsBool, CombineInChoice,
         Combine, KeyCarries, Read, Modules, UserOk;
    LoadedSym(cfg, u, kept, u', s);
    var d := cfg.syms[s];
    if d.kind.Logical() {
      assert SymStr(cfg, u, s) == SymStrWith(cfg, u, s, u.TextOf(s));
      LogicalExpected(cfg, u, s);
      if d.choice.Some? {
        MemberSticks(cfg, u, s, u'.TriOf(s));
      } else {
        TriSticks(cfg, u, s);
      }
    } else {
      assert SymTri(cfg, u, s) == SymTriWith(cfg, u, s, u.TriOf(s));
      if s in kept { TextSticks(cfg, u, s); }
    }
  }

  lemma LoadedSym(cfg: Config, u: User, kept: set<string>, u': User, s: string)
    requires WellFormed(cfg) && Ordered(cfg) && Loaded(cfg, u, kept, |cfg.symOrder|, u') && s in cfg.syms
    ensures Get(u'.val, s) == if s in kept then Expected(cfg, u, s) else None
  {}

  lemma LogicalExpected(cfg: Config, u: User, s: string)
    requires WellFormed(cfg) && s in cfg.syms && Modules(cfg, u) == 0 && cfg.syms[s].kind.Logical()
    ensures Expected(cfg, u, s) == if SymTri(cfg, u, s).write then Some(UserTri(SymTri(cfg, u, s).val)) else None
  {
    NoMValue(cfg, u, s);
    assert SymStr(cfg, u, s) == SymStrWith(cfg, u, s, u.TextOf(s));
    hide WellFormed, SymTri, Modules;
  }

  lemma LoadedChoice(cfg: Config, u: User, kept: set<string>, u': User, c: nat)
    requires WellFormed(cfg) && Ordered(cfg) && Loaded(cfg, u, kept, |cfg.symOrder|, u') && c in cfg.choices
    ensures var sel := Selection(cfg, u, c); u'.SelectionOf(c) == if sel.Some? && sel.value in kept then sel else None
  {
    assert cfg.symOrder[..|cfg.symOrder|] == cfg.symOrder;
    var sel := Selection(cfg, u, c);
    if sel.Some? {
      assert sel.value in cfg.symOrder by {
        assert sel == SelectionWith(cfg, u, c, u.SelectionOf(c));
        if Mode(cfg, u, c) == 2 { SelectionFound(cfg, u, c); }
        assert ChoiceOk(cfg, c);
      }
    }
    hide WellFormed, Selection;
  }

  lemma ChoiceUnnoticed(cfg: Config, u: User, kept: set<string>, u': User, c: nat)
    requires WellFormed(cfg) && Writable(cfg, u) && Enough(cfg, u, kept)
    requires Loaded(cfg, u, kept, |cfg.symOrder|, u') && c in cfg.choices
    ensures ModeWith(cfg, u, c, u'.ModeOf(c)) == Mode(cfg, u, c)
    ensures SelectionWith(cfg, u, c, u'.SelectionOf(c)) == Selection(cfg, u, c)
  {
    PlainMode(cfg, u, c, u'.ModeOf(c));
    PlainMode(cfg, u, c, u.ModeOf(c));
    LoadedChoice(cfg, u, kept, u', c);
    hide WellFormed, ModeWith, SymVis, DefaultFrom, Loaded;
    if Mode(cfg, u, c) == 2 {
      SelectionFound(cfg, u, c);
      DefaultFound(cfg, u, c, cfg.choices[c].defaults);
    }
  }

  /** Loading the entries of `kept` into an empty configuration. */
  function Reloaded(cfg: Config, u: User, kept: set<string>): User
    requires WellFormed(cfg)
  {
    LoadLines(cfg, Session(NO_USER, {}), EntriesOf(cfg, u, cfg.symOrder, kept)).u
  }

  lemma ReloadedIsLoaded(cfg: Config, u: User, kept: set<string>)
    requires WellFormed(cfg) && Writable(cfg, u)
    ensures Loaded(cfg, u, kept, |cfg.symOrder|, Reloaded(cfg, u, kept))
  {
    EntriesLoaded(cfg, u, kept, |cfg.symOrder|);
    assert cfg.symOrder[..|cfg.symOrder|] == cfg.symOrder;
    hide WellFormed, Writable, Loaded, EntriesOf, LoadLines;
  }

  lemma EnoughSuffices(cfg: Config, u: User, kept: set<string>)
    requires WellFormed(cfg) && UserOk(cfg, u) && Writable(cfg, u) && Enough(cfg, u, kept)
    ensures SameValues(cfg, u, Reloaded(cfg, u, kept))
  {
    hide WellFormed, UserOk, Writable, Enough, Loaded, SymTri, SymStr, SymTriWith, SymStrWith, Selection,
         SelectionWith, Mode, ModeWith,
         Reloaded, SameValues;
    var u' := Reloaded(cfg, u, kept);
    ReloadedIsLoaded(cfg, u, kept);
    forall s | s in cfg.syms
      ensures SymTriWith(cfg, u, s, u'.TriOf(s)) == SymTri(cfg, u, s)
      ensures SymStrWith(cfg, u, s, u'.TextOf(s)) == SymStr(cfg, u, s)
    {
      SymUnnoticed(cfg, u, kept, u', s);
    }
    forall c | c in cfg.choices
      ensures ModeWith(cfg, u, c, u'.ModeOf(c)) == Mode(cfg, u, c)
      ensures SelectionWith(cfg, u, c, u'.SelectionOf(c)) == Selection(cfg, u, c)
    {
      ChoiceUnnoticed(cfg, u, kept, u', c);
    }
    Reassign(cfg, u, u');
  }

  /** Conversely, if all values come back, no item alone would have noticed. */
  lemma EnoughNeeded(cfg: Config, u: User, kept: set<string>)
    requires WellFormed(cfg) && UserOk(cfg, u) && Writable(cfg, u) && SameValues(cfg, u, Reloaded(cfg, u, kept))
    ensures Enough(cfg, u, kept)
  {
    hide WellFormed, UserOk, Writable, Loaded, SymTri, SymStr, SymTriWith, SymStrWith, Selection, SelectionWith,
         Mode, ModeWith,
         Reloaded, SameValues, KeyCarries;
    var u' := Reloaded(cfg, u, kept);
    ReloadedIsLoaded(cfg, u, kept);
    forall s | s in cfg.syms
      ensures s !in kept && cfg.syms[s].kind.Logical() && cfg.syms[s].choice.None? ==>
                SymTriWith(cfg, u, s, None) == SymTri(cfg, u, s)
      ensures s !in kept && !cfg.syms[s].kind.Logical() ==> SymStrWith(cfg, u, s, None) == SymStr(cfg, u, s)
      ensures s in kept ==> KeyCarries(cfg, u, s)
    {
      SymNeeded(cfg, u, kept, u', s);
    }
    forall c | c in cfg.choices
      ensures Selection(cfg, u, c).Some? && Selection(cfg, u, c).value !in kept ==>
                SelectionWith(cfg, u, c, None) == Selection(cfg, u, c)
    {
      ChoiceNeeded(cfg, u, kept, u', c);
    }
  }

  /** With modules off and no optional choices, assignments to modes do not matter. */
  lemma ModesIrrelevant(cfg: Config, u: User, u': User, l: nat)
    requires WellFormed(cfg) && Modules(cfg, u) == 0 && forall c :: c in cfg.choices ==> !cfg.choices[c].optional
    ensures ModesKept(cfg, u, u', l)
  {}

  lemma SameUpTo(cfg: Config, u: User, u': User, l: nat)
    requires WellFormed(cfg) && SameValues(cfg, u, u')
    ensures UpTo(cfg, u, l) == UpTo(cfg, u', l)
  {
    hide WellFormed, SymTri, SymStr, Selection, Vis;
    var k, k' := UpTo(cfg, u, l), UpTo(cfg, u', l);
    assert k.vis == k'.vis;
    assert k.tri == k'.tri;
    assert k.str == k'.str;
    assert k.sel == k'.sel;
  }

  lemma SymNeeded(cfg: Config, u: User, kept: set<string>, u': User, s: string)
    requires WellFormed(cfg) && Writable(cfg, u) && SameValues(cfg, u, u')
    requires Loaded(cfg, u, kept, |cfg.symOrder|, u') && s in cfg.syms
    ensures s !in kept && cfg.syms[s].kind.Logical() && cfg.syms[s].choice.None? ==>
              SymTriWith(cfg, u, s, None) == SymTri(cfg, u, s)
    ensures s !in kept && !cfg.syms[s].kind.Logical() ==> SymStrWith(cfg, u, s, None) == SymStr(cfg, u, s)
    ensures s in kept ==> KeyCarries(cfg, u, s)
  {
    hide WellFormed, Loaded, SymTriWith, SymStrWith, KeyCarries, TryTri, TryStr, Modules;
    LoadedSym(cfg, u, kept, u', s);
    var l := StrLevel(cfg, s);
    SameUpTo(cfg, u, u', l);
    ModesIrrelevant(cfg, u, u', l);
    assert ModesKept(cfg, u', u', l);
    if s in kept {
      if cfg.syms[s].kind == Key { KeyNeeded(cfg, u, u', s); } else { NotAKey(cfg, u, s); }
    } else if cfg.syms[s].kind.Logical() {
      TriTotal(cfg, u, u', l, s);
      TriTotal(cfg, u', u', l, s);
    } else {
      StrTotal(cfg, u, u', l, s);
      StrTotal(cfg, u', u', l, s);
    }
  }

  lemma NotAKey(cfg: Config, u: User, s: string)
    requires WellFormed(cfg) && s in cfg.syms && cfg.syms[s].kind != Key
    ensures KeyCarries(cfg, u, s)
  {}

  lemma KeyNeeded(cfg: Config, u: User, u': User, s: string)
    requires WellFormed(cfg) && SameValues(cfg, u, u') && s in cfg.syms && cfg.syms[s].kind == Key
    requires !cfg.syms[s].hidden
    requires Get(u'.val, s) == Expected(cfg, u, s)
    ensures KeyCarries(cfg, u, s)
  {
    assert Sym(s) in Defined(cfg);
    assert Vis(cfg, u', Sym(s)) == Vis(cfg, u, Sym(s));
    assert SymStr(cfg, u, s) == SymStrWith(cfg, u, s, u.TextOf(s));
    assert SymStr(cfg, u', s) == SymStrWith(cfg, u', s, u'.TextOf(s));
    hide WellFormed, SymVis, PickStr, Read;
  }

  lemma ChoiceNeeded(cfg: Config, u: User, kept: set<string>, u': User, c: nat)
    requires WellFormed(cfg) && Writable(cfg, u) && SameValues(cfg, u, u')
    requires Loaded(cfg, u, kept, |cfg.symOrder|, u') && c in cfg.choices
    ensures Selection(cfg, u, c).Some? && Selection(cfg, u, c).value !in kept ==>
              SelectionWith(cfg, u, c, None) == Selection(cfg, u, c)
  {
    hide WellFormed, Loaded, SelectionWith, TrySelection, Modules;
    LoadedChoice(cfg, u, kept, u', c);
    var l := SelLevel(cfg, c);
    SameUpTo(cfg, u, u', l);
    ModesIrrelevant(cfg, u, u', l);
    assert ModesKept(cfg, u', u', l);
    SelectionTotal(cfg, u, u', l, c);
    SelectionTotal(cfg, u', u', l, c);
  }
}
