/** Concrete configurations on which the general laws need their conditions. */
module KconfigExamples {
  import opened Basics
  import opened KconfigModel
  import opened KconfigValues
  import opened KconfigAssignments
  import opened KconfigReassignment
  import opened KconfigLaws
  import opened KconfigText
  import opened KconfigReplaceLoad
  import opened KconfigRoundTrip
  import opened KconfigFiles
  import opened KconfigSyncDeps

  /** A symbol without prompt that is y by default. */
  const DEF_Y := SymDef(Bool, [], [Default(Y, Y)], [], N, N, Y, None, false)

  lemma NothingReferred(cfg: Config, s: string)
    requires s in cfg.syms && cfg.syms[s] == DEF_Y
    ensures SymOk(cfg, s)
  {}

  lemma DefaultY(cfg: Config, u: User, s: string)
    requires WellFormed(cfg) && s in cfg.syms && cfg.syms[s] == DEF_Y && u.TriOf(s).None?
    ensures SymTri(cfg, u, s).val == 2
  {
    hide WellFormed;
    assert Eval(cfg, u, Y) == 2 && Eval(cfg, u, N) == 0;
    assert SymVis(cfg, u, s) == 0;
    assert PickTri(cfg, u, s) == Some((2, 2));
  }

  // A string symbol that is selected

  const SELECTED := SymDef(Str, [Y], [], [], Leaf(Ref(Sym("S"))), N, Y, None, false)

  function Selecting(): Config {
    Config(map["S" := DEF_Y, "X" := SELECTED], map[], ["S", "X"], [],
           (s, b) => None, (k, b) => "", i => if i == Sym("X") then 1 else 0)
  }

  const TYPED := User(map["X" := UserText("a")], map[], map[])

  lemma SelectingOk()
    ensures WellFormed(Selecting()) && UserOk(Selecting(), TYPED) && Ordered(Selecting())
  {
    hide SymOk;
    NothingReferred(Selecting(), "S");
    SelectedOk();
  }

  lemma SelectedOk()
    ensures SymOk(Selecting(), "X")
  {
    var cfg := Selecting();
    forall e | e in SymExprs(SELECTED) ensures Level(cfg, e) <= 11 {
      assert e in [Y, Leaf(Ref(Sym("S"))), N, Y];
    }
  }

  lemma SelectedValue(u: User)
    requires WellFormed(Selecting()) && u.TriOf("S").None?
    ensures var cfg := Selecting();
            SymVis(cfg, u, "X") == 2 && Eval(cfg, u, SELECTED.revDep) == 2 && Modules(cfg, u) == 0 &&
            forall w :: SymStrWith(cfg, u, "X", w) == CombineText(2, w, None)
  {
    var cfg := Selecting();
    hide WellFormed;
    DefaultY(cfg, u, "S");
    assert Eval(cfg, u, Y) == 2;
    assert cfg.syms["X"].prompts[..0] == [];
    assert PickStr(cfg, u, "X") == None;
  }

  lemma SelectingNames(s: string)
    requires s in Selecting().syms
    ensures NameOk(s) && !Selecting().syms[s].hidden && !Selecting().syms[s].kind.Numeric()
    ensures Selecting().syms[s].directDep == Y
  {}

  lemma SelectingWritable(u: User)
    requires WellFormed(Selecting()) && u.TriOf("S").None?
    ensures Writable(Selecting(), u) && PromptsDepend(Selecting(), u)
  {
    hide WellFormed, SymStr, SymTri, SymVis, Modules, Eval, Ordered, NameOk;
    SelectingOk();
    SelectedValue(u);
    var cfg := Selecting();
    assert cfg.choices == map[];
    hide Selecting;
    forall s | s in cfg.syms
      ensures NameOk(s) && !cfg.syms[s].hidden && !cfg.syms[s].kind.Numeric()
      ensures Eval(cfg, u, cfg.syms[s].directDep) != 0
    {
      SelectingNames(s);
      AlwaysY(cfg, u);
    }
  }

  lemma AlwaysY(cfg: Config, u: User)
    requires WellFormed(cfg)
    ensures Eval(cfg, u, Y) == 2
  {}

  lemma TextHeldBack()
    requires WellFormed(Selecting())
    ensures !NotHeldBack(Selecting(), TYPED, "X")
  {
    SelectedValue(TYPED);
    var cfg := Selecting();
    assert SymStr(cfg, TYPED, "X") == SymStrWith(cfg, TYPED, "X", Some("a"));
    hide WellFormed, SymStr, SymTri, SymVis, Eval, SymStrWith;
  }

  /** The minimal configuration leaves out the text of a symbol that is selected, and with it the value
      that was typed. */
  lemma MinConfigLosesText()
    ensures var cfg := Selecting();
            && WellFormed(cfg) && UserOk(cfg, TYPED) && Writable(cfg, TYPED) && PromptsDepend(cfg, TYPED)
            && !SameValues(cfg, TYPED, LoadReplace(cfg, NO_USER, MinConfigLines(cfg, TYPED)))
  {
    hide WellFormed, UserOk, Writable, PromptsDepend, SameValues, LoadReplace, MinConfigLines, NotHeldBack, MinKeeps,
         KeyCarries, Ordered;
    var cfg := Selecting();
    SelectingOk();
    SelectingWritable(TYPED);
    TextHeldBack();
    NobodyOk(cfg);
    MinConfigRoundTrip(cfg, TYPED, NO_USER, MinConfigLines(cfg, TYPED));
  }

  lemma NobodyOk(cfg: Config)
    ensures UserOk(cfg, NO_USER)
  {}

  // A key with a hyphen

  const KEY := SymDef(Key, [Y], [], [], N, N, Y, None, false)

  function Keyed(): Config {
    Config(map["K" := KEY], map[], ["K"], [], (s, b) => None, (k, b) => "", i => 0)
  }

  const HYPHEN := User(map["K" := UserText("a-b")], map[], map[])

  lemma KeyedOk()
    ensures WellFormed(Keyed()) && UserOk(Keyed(), HYPHEN) && Ordered(Keyed())
  {}

  lemma KeyedValue()
    requires WellFormed(Keyed())
    ensures var cfg := Keyed();
            && SymVis(cfg, HYPHEN, "K") == 2 && SymStr(cfg, HYPHEN, "K").val == "a-b" && Modules(cfg, HYPHEN) == 0
            && NewVal(cfg, HYPHEN, "K") == Some("a-b")
  {}

  lemma HyphenCut()
    ensures KeyPrefix("a-b") == "a"
  {}

  /** A key is cut at a character that is no letter, digit or underscore when it is read back. */
  lemma ConfigLosesKey()
    ensures var cfg := Keyed();
            && WellFormed(cfg) && UserOk(cfg, HYPHEN) && Writable(cfg, HYPHEN)
            && !SameValues(cfg, HYPHEN, LoadReplace(cfg, NO_USER, ConfigLines(cfg, HYPHEN)))
  {
    hide WellFormed, UserOk, SameValues, LoadReplace, ConfigLines, SymStr, SymTri, SymVis, Modules, Ordered, KeyPrefix;
    var cfg := Keyed();
    KeyedOk();
    KeyedValue();
    HyphenCut();
    assert !KeyCarries(cfg, HYPHEN, "K");
    NobodyOk(cfg);
    ConfigRoundTrip(cfg, HYPHEN, NO_USER, ConfigLines(cfg, HYPHEN));
  }

  /** Once a key symbol has been recorded, the next sync raises an error. */
  lemma SyncRaises()
    ensures var cfg := Keyed();
            && WellFormed(cfg) && UserOk(cfg, HYPHEN)
            && exists line :: line in SplitLines(AutoConf(cfg, HYPHEN)) && Fails(cfg, line)
  {
    var cfg := Keyed();
    KeyedOk();
    KeyedValue();
    assert NameOk("K") && OneLine("K");
    hide WellFormed, UserOk, NewVal, Ordered, NamesKey, OneLine, NameOk;
    KeyNamesItself(cfg, HYPHEN, "K");
    SyncFails(cfg, HYPHEN);
  }

  // A text of two lines

  const TWO_LINES := User(map["X" := UserText("a\nb")], map[], map[])

  lemma TwoLinesOk()
    ensures UserOk(Selecting(), TWO_LINES)
  {}

  lemma TwoLineEntry()
    requires WellFormed(Selecting())
    ensures NewVal(Selecting(), TWO_LINES, "X") == Some("a\nb")
  {
    SelectedValue(TWO_LINES);
    var cfg := Selecting();
    assert SymStr(cfg, TWO_LINES, "X") == SymStrWith(cfg, TWO_LINES, "X", Some("a\nb"));
    hide WellFormed, SymStr, SymTri, SymVis, Eval, SymStrWith;
  }

  lemma HasBreak(s: string, i: nat)
    requires i < |s| && LineBreak(s[i])
    ensures !OneLine(s)
  {
    assert s[i] in s;
  }

  /** A symbol whose text contains a line break is touched although nothing changed. */
  lemma SyncTouchesTwoLines()
    ensures var cfg := Selecting();
            && WellFormed(cfg) && UserOk(cfg, TWO_LINES)
            && "X" in Touched(cfg, TWO_LINES, {"S", "X"}, SplitLines(AutoConf(cfg, TWO_LINES)))
  {
    hide WellFormed, UserOk, NewVal, Touched, AutoConf, SplitLines, OneLine, Ordered;
    var cfg := Selecting();
    SelectingOk();
    TwoLineEntry();
    TwoLinesOk();
    HasBreak("a\nb", 1);
    BrokenIsTouched(cfg, TWO_LINES, {"S", "X"}, AutoConf(cfg, TWO_LINES), "X");
  }

  // A text that looks like the entry of a key

  const TEXT := SymDef(Str, [Y], [], [], N, N, Y, None, false)
  const NO_KEY := SymDef(Key, [], [], [], N, N, Y, None, false)

  function Quoting(): Config {
    Config(map["X" := TEXT, "K" := NO_KEY], map[], ["X", "K"], [], (s, b) => None, (k, b) => "", i => 0)
  }

  /** The second line of the entry of X. */
  const KEY_LINE := PREFIX + "K" + "=" + "b\""
  const LOOKS_LIKE := "a\n" + PREFIX + "K=b"
  const LOOKALIKE := User(map["X" := UserText(LOOKS_LIKE)], map[], map[])

  lemma TextSymOk()
    ensures SymOk(Quoting(), "X")
  {}

  lemma NoKeySymOk()
    ensures SymOk(Quoting(), "K")
  {}

  lemma QuotingOk()
    ensures WellFormed(Quoting()) && UserOk(Quoting(), LOOKALIKE) && Ordered(Quoting())
  {
    hide SymOk;
    TextSymOk();
    NoKeySymOk();
  }

  lemma QuotingValues()
    requires WellFormed(Quoting())
    ensures NewVal(Quoting(), LOOKALIKE, "X") == Some(LOOKS_LIKE)
    ensures NewVal(Quoting(), LOOKALIKE, "K") == None
  {
    var cfg := Quoting();
    assert SymStr(cfg, LOOKALIKE, "X") == SymStrWith(cfg, LOOKALIKE, "X", Some(LOOKS_LIKE));
    assert SymStr(cfg, LOOKALIKE, "K") == SymStrWith(cfg, LOOKALIKE, "K", None);
    hide WellFormed, SymStr;
    assert PickStr(cfg, LOOKALIKE, "K") == None;
    assert SymVis(cfg, LOOKALIKE, "K") == 0;
  }

  predicate Plain(s: string) { forall i :: 0 <= i < |s| ==> s[i] != '\\' && s[i] != '"' }

  lemma {:induction false} EscapePlain(s: string)
    requires Plain(s)
    ensures Escape(s) == s
  {
    if s != [] {
      assert s == [s[0]] + s[1..];
      EscapeByChar(s[0], s[1..]);
      EscapePlain(s[1..]);
    }
  }

  lemma EntryOfX()
    ensures EntryOf(Str, "X", LOOKS_LIKE) == PREFIX + "X=\"a" + "\n" + KEY_LINE
  {
    assert Plain("a\n") && Plain(PREFIX) && Plain("K=b");
    assert Plain(LOOKS_LIKE);
    EscapePlain(LOOKS_LIKE);
    hide Escape, Plain;
  }

  lemma KeyLine()
    ensures KEY_LINE in SplitLines(EntryOf(Str, "X", LOOKS_LIKE)) && Fails(Quoting(), KEY_LINE)
  {
    hide EntryOf, SplitLines, SetMatch;
    EntryOfX();
    LinesOfBoth(PREFIX + "X=\"a", KEY_LINE, KEY_LINE);
    assert OneLine(PREFIX) && OneLine("K") && OneLine("=") && OneLine("b\"");
    LinesOfOneLine(KEY_LINE);
    SetMatchEntry("K", "b\"");
  }

  /** A text can make the next sync raise an error although no key symbol has an entry. */
  lemma SyncRaisesOnText()
    ensures var cfg := Quoting();
            && WellFormed(cfg) && UserOk(cfg, LOOKALIKE)
            && (forall s :: s in cfg.syms && cfg.syms[s].kind == Key ==> NewVal(cfg, LOOKALIKE, s) == None)
            && exists line :: line in SplitLines(AutoConf(cfg, LOOKALIKE)) && Fails(cfg, line)
  {
    var cfg := Quoting();
    hide WellFormed, UserOk, NewVal, Ordered, SplitLines, AutoConf, Fails, EntryOf;
    QuotingOk();
    QuotingValues();
    KeyLine();
    assert NamesKey(cfg, LOOKALIKE, "X");
    SyncFails(cfg, LOOKALIKE);
  }

  // A choice set to m by the file

  const IN_CHOICE := SymDef(Tristate, [Leaf(Ref(Cho(0)))], [], [], N, N, Y, Some(0), false)

  function Choosing(): Config {
    Config(map["A" := IN_CHOICE], map[0 := ChoiceDef(Tristate, [Y], [], ["A"], false)], ["A"], [0],
           (s, b) => None, (k, b) => "", i => if i == Sym(MODULES) then 0 else 1)
  }

  const CHOSEN := User(map[], map[], map[0 := "A"])

  lemma ChoosingOk()
    ensures WellFormed(Choosing()) && UserOk(Choosing(), CHOSEN)
  {
    var cfg := Choosing();
    var own := Leaf(Ref(Cho(0)));
    forall e | e in SymExprs(IN_CHOICE) ensures Level(cfg, e) <= 11 {
      assert e in [own, N, N, Y];
    }
    assert SymExprs(IN_CHOICE)[0] == own && Cho(0) in Items(own);
    assert SymOk(cfg, "A");
    assert forall e :: e in ChoiceExprs(cfg.choices[0]) ==> e == Y;
    assert ChoiceOk(cfg, 0);
    assert "A" in cfg.choices[0].syms;
  }

  lemma LineMatches()
    ensures SetMatch(RStrip("CONFIG_A=m")) == Some(("A", "m"))
  {
    assert RStrip("CONFIG_A=m") == "CONFIG_A=m";
    var rest := "CONFIG_A=m"[|PREFIX|..];
    assert rest == "A=m";
    assert Find(rest, '=') == 1;
    assert rest[..1] == "A" && rest[2..] == "m";
  }

  /** A file that sets a choice symbol to m leaves the earlier selection of the choice in place, although
      everything the file does not set should be forgotten. */
  lemma ReplaceKeepsSelection()
    ensures var cfg, lines := Choosing(), ["CONFIG_A=m"];
            && WellFormed(cfg) && UserOk(cfg, CHOSEN)
            && LoadReplace(cfg, CHOSEN, lines) != LoadLines(cfg, Session(NO_USER, {}), lines).u
  {
    var cfg, lines := Choosing(), ["CONFIG_A=m"];
    ChoosingOk();
    LineMatches();
    hide WellFormed, UserOk, SetMatch, RStrip, LoadLines, LoadReplace;
    assert Assigns(cfg, "CONFIG_A=m", 0, 'm') && "CONFIG_A=m" in lines;
    assert Leftover(cfg, CHOSEN, lines, 0);
    ReplaceForgets(cfg, CHOSEN, lines);
  }

  // Visible and selected to m, implied to y

  const M := Leaf(Nmy(1))

  const PULLED := SymDef(Tristate, [M], [], [], And(Leaf(Ref(Sym("S"))), M), Leaf(Ref(Sym("S"))), Y, None, false)

  function Pulling(): Config {
    Config(map["S" := DEF_Y, "T" := PULLED, MODULES := DEF_Y], map[], ["S", "T", MODULES], [],
           (s, b) => None, (k, b) => "", i => if i == Sym("T") then 1 else 0)
  }

  lemma PullingOk()
    ensures WellFormed(Pulling()) && UserOk(Pulling(), NO_USER)
  {
    hide SymOk;
    NothingReferred(Pulling(), "S");
    NothingReferred(Pulling(), MODULES);
    PulledOk();
  }

  lemma PulledOk()
    ensures SymOk(Pulling(), "T")
  {
    var cfg := Pulling();
    forall e | e in SymExprs(PULLED) ensures Level(cfg, e) <= 11 {
      assert e in [M, PULLED.revDep, PULLED.weakRevDep, Y];
    }
  }

  lemma PulledVisible()
    requires WellFormed(Pulling())
    ensures Miscounted(Pulling(), NO_USER, "T")
  {
    var cfg := Pulling();
    hide WellFormed;
    DefaultY(cfg, NO_USER, "S");
    DefaultY(cfg, NO_USER, MODULES);
    assert Eval(cfg, NO_USER, M) == 1 && Eval(cfg, NO_USER, PULLED.weakRevDep) == 2;
    assert Eval(cfg, NO_USER, PULLED.revDep) == Min(Eval(cfg, NO_USER, PULLED.weakRevDep), 1);
    assert !ActsAsBool(cfg, NO_USER, "T");
    assert cfg.syms["T"].prompts[..0] == [];
    assert SymVis(cfg, NO_USER, "T") == 1;
  }

  /** The values assignable() lists for such a symbol are not those that can be set. */
  lemma AssignableOff()
    ensures var cfg := Pulling();
            && WellFormed(cfg) && UserOk(cfg, NO_USER)
            && !(forall v: Tri :: Sticks(cfg, NO_USER, "T", v) <==> v in SymAssignable(cfg, NO_USER, "T"))
  {
    PullingOk();
    PulledVisible();
    hide WellFormed, UserOk, Sticks, SymAssignable;
    AssignableExact(Pulling(), NO_USER, "T");
  }

  // A number whose default is outside its range

  const LIMITED := SymDef(Int, [Y], [Default(Leaf(Quoted("2000")), Y)], [Range(Quoted("10"), Quoted("1000"), Y)],
                          N, N, Y, None, false)

  function Limiting(): Config {
    Config(map["X" := LIMITED], map[], ["X"], [],
           (s, b) => if s == "10" then Some(10) else if s == "1000" then Some(1000)
                     else if s == "2000" then Some(2000) else None,
           (k, b) => if k == 10 then "10" else if k == 1000 then "1000" else "2000",
           i => 0)
  }

  lemma LimitingOk()
    ensures WellFormed(Limiting())
  {
    var cfg := Limiting();
    forall e | e in SymExprs(LIMITED) ensures Level(cfg, e) <= 3 {
      assert e in [Y, Leaf(Quoted("2000")), Y, Leaf(Quoted("10")), Leaf(Quoted("1000")), Y, N, N, Y];
    }
  }

  lemma LimitedParts()
    requires WellFormed(Limiting())
    ensures var cfg := Limiting();
            && SymVis(cfg, NO_USER, "X") == 2 && Eval(cfg, NO_USER, N) == 0
            && PickStr(cfg, NO_USER, "X") == Some("2000") && SymRange(cfg, NO_USER, "X") == Some((10, 1000))
  {
    var cfg := Limiting();
    hide WellFormed;
    assert Eval(cfg, NO_USER, Y) == 2 && Eval(cfg, NO_USER, N) == 0;
    assert LIMITED.prompts[..0] == [];
  }

  /** The minimal configuration has an entry for it although nothing was assigned. */
  lemma MinConfigSurplus()
    ensures var cfg := Limiting();
            WellFormed(cfg) && MinKeeps(cfg, NO_USER, "X") && SymStr(cfg, NO_USER, "X").val == "1000" &&
            !Needed(cfg, NO_USER, "X")
  {
    LimitingOk();
    LimitedParts();
    var cfg := Limiting();
    hide WellFormed, SymVis, Eval, PickStr, SymRange;
    assert SymStr(cfg, NO_USER, "X") == SymStrWith(cfg, NO_USER, "X", None);
  }
}
