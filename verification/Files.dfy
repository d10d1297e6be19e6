/** Whole .config files: full and minimal configurations, written, possibly decorated with comments,
    and loaded over whatever was there. */
module KconfigFiles {
  import opened Basics
  import opened KconfigModel
  import opened KconfigValues
  import opened KconfigMeaning
  import opened KconfigCaches
  import opened KconfigReassignment
  import opened KconfigAssignments
  import opened KconfigLaws
  import opened KconfigText
  import opened KconfigReplaceLoad
  import opened KconfigRoundTrip

  // Lines and text

  predicate LineBreak(c: char) { c == '\n' || c == '\r' }

  /** Without line breaks. */
  ghost predicate OneLine(s: string) { forall c :: c in s ==> !LineBreak(c) }

  function NextBreak(s: string): (i: nat)
    ensures i <= |s| && (i < |s| ==> LineBreak(s[i])) && forall j :: 0 <= j < i ==> !LineBreak(s[j])
  {
    if s == [] || LineBreak(s[0]) then 0 else 1 + NextBreak(s[1..])
  }

  /** The lines of a text file. */
  function SplitLines(text: string): seq<string> {
    if text == [] then []
    else
      var i := NextBreak(text);
      if i == |text| then [text] else [text[..i]] + SplitLines(text[i + 1..])
  }

  function JoinLines(lines: seq<string>): string {
    if lines == [] then [] else lines[0] + "\n" + JoinLines(lines[1..])
  }

  lemma FirstLine(line: string, rest: string)
    requires OneLine(line)
    ensures SplitLines(line + "\n" + rest) == [line] + SplitLines(rest)
  {
    var text := line + "\n" + rest;
    assert text[|line|] == '\n';
    assert forall j :: 0 <= j < |line| ==> text[j] == line[j] && line[j] in line;
    assert NextBreak(text) == |line|;
    assert text[..|line|] == line && text[|line| + 1..] == rest;
  }

  lemma {:induction false} SplitJoin(lines: seq<string>)
    requires forall line :: line in lines ==> OneLine(line)
    ensures SplitLines(JoinLines(lines)) == lines
  {
    hide SplitLines, OneLine;
    if lines == [] {
      NoLines();
    } else {
      assert lines[0] in lines;
      FirstLine(lines[0], JoinLines(lines[1..]));
      SplitJoin(lines[1..]);
      assert lines == [lines[0]] + lines[1..];
    }
  }

  /** The lines of a file have no line breaks. */
  lemma {:induction false} SplitOneLine(text: string)
    ensures forall line :: line in SplitLines(text) ==> OneLine(line)
    decreases |text|
  {
    if text != [] {
      var i := NextBreak(text);
      assert OneLine(text[..i]);
      if i < |text| { SplitOneLine(text[i + 1..]); }
    }
  }

  /** Text that is written before other text keeps its lines, up to empty ones. */
  lemma {:induction false} LinesOfBoth(a: string, b: string, line: string)
    requires line != []
    ensures line in SplitLines(a + "\n" + b) <==> line in SplitLines(a) || line in SplitLines(b)
    decreases |a|
  {
    var i, text := NextBreak(a), a + "\n" + b;
    if i == |a| {
      assert forall c :: c in a ==> exists j :: 0 <= j < i && a[j] == c;
      FirstLine(a, b);
    } else {
      assert forall j :: 0 <= j <= i ==> text[j] == a[j];
      assert NextBreak(text) == i;
      assert text[..i] == a[..i] && text[i + 1..] == a[i + 1..] + "\n" + b;
      LinesOfBoth(a[i + 1..], b, line);
    }
  }

  /** The lines of a written file are those of its entries. */
  lemma {:induction false} LinesOfAll(entries: seq<string>, line: string)
    requires line != []
    ensures line in SplitLines(JoinLines(entries)) <==> exists e :: e in entries && line in SplitLines(e)
  {
    hide SplitLines;
    if entries == [] {
      NoLines();
    } else {
      LinesOfBoth(entries[0], JoinLines(entries[1..]), line);
      LinesOfAll(entries[1..], line);
      assert entries == [entries[0]] + entries[1..];
    }
  }

  lemma LinesOfOneLine(line: string)
    requires OneLine(line) && line != []
    ensures SplitLines(line) == [line]
  {
    assert NextBreak(line) == |line|;
  }

  lemma NoLines()
    ensures SplitLines([]) == []
  {}

  /** Lines that are neither of the two assignment forms: comments, blank lines, malformed ones. */
  predicate Ignored(line: string) {
    SetMatch(RStrip(line)).None? && UnsetMatch(RStrip(line)).None?
  }

  function Significant(lines: seq<string>): seq<string> {
    if lines == [] then []
    else
      var last := lines[|lines| - 1];
      Significant(lines[..|lines| - 1]) + (if Ignored(last) then [] else [last])
  }

  lemma {:induction false} IgnoredLines(cfg: Config, st: Session, lines: seq<string>)
    ensures LoadLines(cfg, st, lines) == LoadLines(cfg, st, Significant(lines))
  {
    hide SetMatch, UnsetMatch, RStrip, LoadValue, SetSym;
    if lines != [] {
      var front, last := lines[..|lines| - 1], lines[|lines| - 1];
      IgnoredLines(cfg, st, front);
      if Ignored(last) {
        assert Significant(lines) == Significant(front);
      } else {
        var all := Significant(front) + [last];
        assert all[..|all| - 1] == Significant(front);
      }
    }
  }

  lemma {:induction false} SignificantOnes(lines: seq<string>, line: string)
    requires line in lines && !Ignored(line)
    ensures line in Significant(lines)
  {
    hide Ignored;
    var front := lines[..|lines| - 1];
    if line in front { SignificantOnes(front, line); }
    else { assert line == lines[|lines| - 1]; }
  }

  lemma {:induction false} SignificantOnly(lines: seq<string>, line: string)
    requires line in Significant(lines)
    ensures line in lines
  {
    hide Ignored;
    var front := lines[..|lines| - 1];
    if line in Significant(front) { SignificantOnly(front, line); }
  }

  // Order

  /** Entries come in the order of the symbols. */
  lemma {:induction false} EntriesInOrder(cfg: Config, u: User, a: seq<string>, b: seq<string>, kept: set<string>)
    requires WellFormed(cfg)
    ensures EntriesOf(cfg, u, a + b, kept) == EntriesOf(cfg, u, a, kept) + EntriesOf(cfg, u, b, kept)
    decreases |b|
  {
    hide WellFormed, ConfigLine;
    if b == [] {
      assert a + b == a;
    } else {
      EntriesInOrder(cfg, u, a, b[..|b| - 1], kept);
      assert (a + b)[..|a + b| - 1] == a + b[..|b| - 1];
    }
  }

  // Spelling

  /** How logical values are written. */
  lemma WrittenAs(cfg: Config, u: User, s: string)
    requires WellFormed(cfg) && s in cfg.syms
    ensures ConfigLine(cfg, u, s).Some? <==> SymStr(cfg, u, s).write
    ensures ConfigLine(cfg, u, s).Some? && cfg.syms[s].kind.Logical() ==>
              ConfigLine(cfg, u, s).value ==
                if SymTri(cfg, u, s).val == 0 then "# CONFIG_" + s + " is not set"
                else if SymTri(cfg, u, s).val == 1 then "CONFIG_" + s + "=m" else "CONFIG_" + s + "=y"
    ensures ConfigLine(cfg, u, s).Some? && cfg.syms[s].kind.Numeric() ==>
              ConfigLine(cfg, u, s).value == "CONFIG_" + s + "=" + SymStr(cfg, u, s).val
    ensures ConfigLine(cfg, u, s).Some? && cfg.syms[s].kind == Str ==>
              ConfigLine(cfg, u, s).value == "CONFIG_" + s + "=\"" + Escape(SymStr(cfg, u, s).val) + "\""
  {
    hide WellFormed, SymTri, SymStr, Escape;
    SpelledOut(cfg, u, s);
    assert "# " + PREFIX == "# CONFIG_";
  }

  /** Everything but what belongs to `s` and its choice is the same. */
  ghost predicate OthersSame(cfg: Config, st: Session, st': Session, s: string)
    requires s in cfg.syms
  {
    && (forall x :: x != s ==> Get(st'.u.val, x) == Get(st.u.val, x))
    && (forall c: nat :: cfg.syms[s].choice != Some(c) ==>
                           Get(st'.u.mode, c) == Get(st.u.mode, c) && Get(st'.u.sel, c) == Get(st.u.sel, c))
    && forall i :: i != Sym(s) && (cfg.syms[s].choice.None? || i != Cho(cfg.syms[s].choice.value)) ==>
                     (i in st'.marks <==> i in st.marks)
  }

  /** What a line that gives n, m or y does: the symbol gets that value and is marked. Unless it is n, its
      choice gets it as its mode, and y selects the symbol. Nothing else changes. */
  ghost predicate Gives(cfg: Config, st: Session, st': Session, s: string, t: Tri)
    requires s in cfg.syms
  {
    && Get(st'.u.val, s) == Some(UserTri(t)) && Sym(s) in st'.marks && OthersSame(cfg, st, st', s)
    && (cfg.syms[s].choice.Some? ==>
          var c := cfg.syms[s].choice.value;
          && Get(st'.u.mode, c) == (if t == 0 then Get(st.u.mode, c) else Some(t))
          && Get(st'.u.sel, c) == (if t == 2 then Some(s) else Get(st.u.sel, c))
          && (Cho(c) in st'.marks <==> Cho(c) in st.marks || t != 0))
  }

  /** The value is one the symbol, and unless it is n also its choice, can take. */
  predicate CanTake(cfg: Config, s: string, t: Tri)
    requires s in cfg.syms
  {
    && (cfg.syms[s].kind == Tristate || (cfg.syms[s].kind == Bool && t != 1))
    && (cfg.syms[s].choice.Some? ==>
          var c := cfg.syms[s].choice.value; c in cfg.choices && (cfg.choices[c].kind == Bool ==> t != 1))
  }

  /** The four spellings are read as they are meant. */
  lemma ReadAs(cfg: Config, st: Session, s: string)
    requires WellFormed(cfg) && s in cfg.syms && NameOk(s)
    ensures CanTake(cfg, s, 2) ==> Gives(cfg, st, LoadLine(cfg, st, "CONFIG_" + s + "=y"), s, 2)
    ensures CanTake(cfg, s, 1) ==> Gives(cfg, st, LoadLine(cfg, st, "CONFIG_" + s + "=m"), s, 1)
    ensures CanTake(cfg, s, 0) ==> Gives(cfg, st, LoadLine(cfg, st, "CONFIG_" + s + "=n"), s, 0)
    ensures CanTake(cfg, s, 0) ==> Gives(cfg, st, LoadLine(cfg, st, "# CONFIG_" + s + " is not set"), s, 0)
  {
    hide SetMatch, UnsetMatch, RStrip, NameOk, Gives, LoadLine, LoadTri, WellFormed;
    assert "CONFIG_" + s + "=y" == PREFIX + s + "=" + "y" && "CONFIG_" + s + "=m" == PREFIX + s + "=" + "m";
    assert "CONFIG_" + s + "=n" == PREFIX + s + "=" + "n" && "# " + PREFIX == "# CONFIG_";
    if CanTake(cfg, s, 2) { ReadLetter(cfg, st, s, "y", 2); }
    if CanTake(cfg, s, 1) { ReadLetter(cfg, st, s, "m", 1); }
    if CanTake(cfg, s, 0) {
      ReadLetter(cfg, st, s, "n", 0);
      ReadNotSet(cfg, st, s);
    }
  }

  lemma ReadLetter(cfg: Config, st: Session, s: string, val: string, t: Tri)
    requires WellFormed(cfg) && s in cfg.syms && NameOk(s) && CanTake(cfg, s, t)
    requires val == (if t == 0 then "n" else if t == 1 then "m" else "y")
    ensures Gives(cfg, st, LoadLine(cfg, st, PREFIX + s + "=" + val), s, t)
  {
    hide SetMatch, UnsetMatch, RStrip, NameOk, Gives, LoadTri, WellFormed;
    OneLetter();
    StrippedEntry(s, val);
    SetMatchEntry(s, val);
    LoadTriGives(cfg, st, s, t);
  }

  lemma ReadNotSet(cfg: Config, st: Session, s: string)
    requires WellFormed(cfg) && s in cfg.syms && NameOk(s) && CanTake(cfg, s, 0)
    ensures Gives(cfg, st, LoadLine(cfg, st, "# " + PREFIX + s + NOT_SET), s, 0)
  {
    hide SetMatch, UnsetMatch, RStrip, NameOk, Gives, SetSym, WellFormed;
    UnsetMatchEntry(s);
    LoadTriGives(cfg, st, s, 0);
    assert LoadTri(cfg, st, s, 0) == SetSym(cfg, st, s, UserTri(0)).0;
  }

  lemma OneLetter()
    ensures RStrip("y") == "y" && RStrip("m") == "m" && RStrip("n") == "n"
  {}

  lemma LoadTriGives(cfg: Config, st: Session, s: string, t: Tri)
    requires WellFormed(cfg) && s in cfg.syms && CanTake(cfg, s, t)
    ensures Gives(cfg, st, LoadTri(cfg, st, s, t), s, t)
  {
    hide WellFormed, OthersSame;
    var c := cfg.syms[s].choice;
    if c.Some? {
      ChoiceFacts(cfg, c.value);
      ModeGiven(cfg, st, c.value, t);
    }
    LoadTriOthers(cfg, st, s, t);
  }

  lemma ModeGiven(cfg: Config, st: Session, c: nat, t: Tri)
    requires c in cfg.choices && ValidFor(cfg, cfg.choices[c].kind, UserTri(t))
    ensures var st' := SetMode(cfg, st, c, t).0;
            && Get(st'.u.mode, c) == Some(t) && Cho(c) in st'.marks && st'.u.sel == st.u.sel && st'.u.val == st.u.val
            && (forall x: nat :: x != c ==> Get(st'.u.mode, x) == Get(st.u.mode, x))
            && forall i :: i != Cho(c) ==> (i in st'.marks <==> i in st.marks)
  {}

  lemma LoadTriOthers(cfg: Config, st: Session, s: string, t: Tri)
    requires WellFormed(cfg) && s in cfg.syms && CanTake(cfg, s, t)
    ensures OthersSame(cfg, st, LoadTri(cfg, st, s, t), s)
  {
    hide WellFormed, SetMode, ValidFor;
    var c := cfg.syms[s].choice;
    if c.Some? {
      ChoiceFacts(cfg, c.value);
      assert ValidFor(cfg, cfg.choices[c.value].kind, UserTri(t)) by { CanTakeMode(cfg, c.value, t); }
      ModeGiven(cfg, st, c.value, t);
    }
  }

  lemma CanTakeMode(cfg: Config, c: nat, t: Tri)
    requires c in cfg.choices && cfg.choices[c].kind.Logical() && (cfg.choices[c].kind == Bool ==> t != 1)
    ensures ValidFor(cfg, cfg.choices[c].kind, UserTri(t))
  {  }

  // Entries assign only y and n to choice symbols

  /** What an entry matches, whatever the value. */
  lemma MatchedEntry(kind: Kind, s: string, val: string)
    requires NameOk(s)
    ensures var m := SetMatch(RStrip(EntryOf(kind, s, val)));
            if kind.Logical() && val == "n" then m == None
            else m.Some? && m.value.0 == s && (kind != Str ==> m.value.1 == RStrip(val))
  {
    hide SetMatch, UnsetMatch, RStrip, Escape, NameOk;
    if kind.Logical() && val == "n" {
      UnsetMatchEntry(s);
    } else if kind == Str {
      StrippedEntry(s, "\"" + Escape(val) + "\"");
      assert EntryOf(kind, s, val) == PREFIX + s + "=" + ("\"" + Escape(val) + "\"");
    } else {
      StrippedEntry(s, val);
    }
  }

  lemma EntryYN(cfg: Config, u: User, s: string)
    requires WellFormed(cfg) && Writable(cfg, u) && s in cfg.syms && ConfigLine(cfg, u, s).Some?
    ensures OnlyYN(cfg, ConfigLine(cfg, u, s).value)
  {
    EntryFacts(cfg, u, s);
    hide WellFormed, Writable, SymTri, SymStr, Carried, SetMatch, NameOk, ValidFor, EntryOf, Modules;
    MatchedEntry(cfg.syms[s].kind, s, SymStr(cfg, u, s).val);
  }

  lemma {:induction false} EntriesYN(cfg: Config, u: User, syms: seq<string>, kept: set<string>, line: string)
    requires WellFormed(cfg) && Writable(cfg, u) && forall s :: s in syms ==> s in cfg.syms
    requires line in EntriesOf(cfg, u, syms, kept)
    ensures OnlyYN(cfg, line)
    decreases |syms|
  {
    hide WellFormed, Writable, OnlyYN, ConfigLine;
    var s := syms[|syms| - 1];
    if line in EntriesOf(cfg, u, syms[..|syms| - 1], kept) {
      EntriesYN(cfg, u, syms[..|syms| - 1], kept, line);
    } else {
      EntryYN(cfg, u, s);
    }
  }

  /** Loading a file with these entries over any state is loading them into nothing. */
  lemma FileReloads(cfg: Config, u: User, u0: User, kept: set<string>, lines: seq<string>)
    requires WellFormed(cfg) && Writable(cfg, u) && UserOk(cfg, u0)
    requires Significant(lines) == Significant(EntriesOf(cfg, u, cfg.symOrder, kept))
    ensures LoadReplace(cfg, u0, lines) == Reloaded(cfg, u, kept)
  {
    var entries := EntriesOf(cfg, u, cfg.symOrder, kept);
    forall s | s in cfg.symOrder ensures s in cfg.syms {}
    hide WellFormed, Writable, UserOk, EntriesOf, LoadLines, LoadReplace;
    forall line | line in lines ensures OnlyYN(cfg, line) {
      if !Ignored(line) {
        SignificantOnes(lines, line);
        SignificantOnly(entries, line);
        EntriesYN(cfg, u, cfg.symOrder, kept, line);
      }
    }
    ReplaceForgetsYN(cfg, u0, lines);
    IgnoredLines(cfg, Session(NO_USER, {}), lines);
    IgnoredLines(cfg, Session(NO_USER, {}), entries);
  }

  // The theorems

  lemma {:induction false} SameEntries(cfg: Config, u: User, u': User, syms: seq<string>, kept: set<string>)
    requires WellFormed(cfg) && SameValues(cfg, u, u') && forall s :: s in syms ==> s in cfg.syms
    ensures EntriesOf(cfg, u', syms, kept) == EntriesOf(cfg, u, syms, kept)
    decreases |syms|
  {
    hide WellFormed, SymStr;
    if syms != [] {
      SameEntries(cfg, u, u', syms[..|syms| - 1], kept);
      assert syms[|syms| - 1] in syms;
    }
  }

  /** Full configurations: every value comes back, from any prior state, if and only if every visible
      key consists of key characters; and then writing again gives the same lines. */
  lemma ConfigRoundTrip(cfg: Config, u: User, u0: User, lines: seq<string>)
    requires WellFormed(cfg) && UserOk(cfg, u) && UserOk(cfg, u0) && Writable(cfg, u)
    requires Significant(lines) == Significant(ConfigLines(cfg, u))
    ensures SameValues(cfg, u, LoadReplace(cfg, u0, lines)) <==> forall s :: s in cfg.syms ==> KeyCarries(cfg, u, s)
    ensures SameValues(cfg, u, LoadReplace(cfg, u0, lines)) ==>
              ConfigLines(cfg, LoadReplace(cfg, u0, lines)) == ConfigLines(cfg, u)
  {
    FileReloads(cfg, u, u0, cfg.syms.Keys, lines);
    var u' := LoadReplace(cfg, u0, lines);
    assert (forall s :: s in cfg.syms ==> KeyCarries(cfg, u, s)) <==> Enough(cfg, u, cfg.syms.Keys) by {
      EverythingKept(cfg, u);
    }
    hide WellFormed, UserOk, Enough, KeyCarries, Reloaded, EntriesOf, LoadReplace, SameValues;
    if Enough(cfg, u, cfg.syms.Keys) {
      EnoughSuffices(cfg, u, cfg.syms.Keys);
    }
    if SameValues(cfg, u, u') {
      EnoughNeeded(cfg, u, cfg.syms.Keys);
      SameEntries(cfg, u, u', cfg.symOrder, cfg.syms.Keys);
    }
  }

  /** The same for text files: without line breaks in values, loading the written text brings every
      value back, and writing again gives the identical text. */
  lemma TextRoundTrip(cfg: Config, u: User, u0: User)
    requires WellFormed(cfg) && UserOk(cfg, u) && UserOk(cfg, u0) && Writable(cfg, u)
    requires forall line :: line in ConfigLines(cfg, u) ==> OneLine(line)
    ensures var text := JoinLines(ConfigLines(cfg, u));
            var u' := LoadReplace(cfg, u0, SplitLines(text));
            && (SameValues(cfg, u, u') <==> forall s :: s in cfg.syms ==> KeyCarries(cfg, u, s))
            && (SameValues(cfg, u, u') ==> JoinLines(ConfigLines(cfg, u')) == text)
  {
    hide WellFormed, UserOk, Writable, ConfigLines, LoadReplace, SameValues, KeyCarries, JoinLines, SplitLines;
    SplitJoin(ConfigLines(cfg, u));
    ConfigRoundTrip(cfg, u, u0, ConfigLines(cfg, u));
  }

  lemma EverythingKept(cfg: Config, u: User)
    requires WellFormed(cfg)
    ensures Enough(cfg, u, cfg.syms.Keys) <==> forall s :: s in cfg.syms ==> KeyCarries(cfg, u, s)
  {
    forall c | c in cfg.choices && Selection(cfg, u, c).Some? ensures Selection(cfg, u, c).value in cfg.syms {
      assert Selection(cfg, u, c) == SelectionWith(cfg, u, c, u.SelectionOf(c));
      if Mode(cfg, u, c) == 2 { SelectionFound(cfg, u, c); }
      assert ChoiceOk(cfg, c);
    }
    hide WellFormed, KeyCarries, SymTri, SymStr, SymTriWith, SymStrWith, Selection, SelectionWith;
  }

  // Minimal configurations

  /** What finalization guarantees: the conditions of a prompt include the direct dependencies. */
  ghost predicate PromptsDepend(cfg: Config, u: User)
    requires WellFormed(cfg)
  {
    forall s :: s in cfg.syms && SymVis(cfg, u, s) != 0 ==> Eval(cfg, u, cfg.syms[s].directDep) != 0
  }

  /** A visible symbol that is neither bool nor tristate is not selected, or has its default. The
      minimal configuration takes a selected symbol for one that cannot be changed. */
  ghost predicate NotHeldBack(cfg: Config, u: User, s: string)
    requires WellFormed(cfg) && s in cfg.syms
  {
    !cfg.syms[s].kind.Logical() && SymVis(cfg, u, s) != 0 && SymVis(cfg, u, s) <= Eval(cfg, u, cfg.syms[s].revDep) ==>
      SymStrWith(cfg, u, s, None) == SymStr(cfg, u, s)
  }

  /** A left-out logical symbol gets its value from its default. */
  lemma LeftOutTri(cfg: Config, u: User, s: string)
    requires WellFormed(cfg) && Modules(cfg, u) == 0 && PromptsDepend(cfg, u)
    requires s in cfg.syms && cfg.syms[s].kind.Logical() && cfg.syms[s].choice.None? && !MinKeeps(cfg, u, s)
    ensures SymTriWith(cfg, u, s, None) == SymTri(cfg, u, s)
  {
    NoMVisibility(cfg, u, s);
    assert SymVis(cfg, u, s) != 0 ==> Eval(cfg, u, cfg.syms[s].directDep) != 0;
    assert SymStr(cfg, u, s) == SymStrWith(cfg, u, s, u.TextOf(s));
    hide WellFormed, Modules, SymVis, ActsAsBool, PickTri, Eval, PromptsDepend;
    assert SymTri(cfg, u, s) == SymTriWith(cfg, u, s, u.TriOf(s));
  }

  lemma LeftOutStr(cfg: Config, u: User, s: string)
    requires WellFormed(cfg) && UserOk(cfg, u) && s in cfg.syms && !cfg.syms[s].kind.Logical() && !MinKeeps(cfg, u, s)
    requires NotHeldBack(cfg, u, s) && cfg.syms[s].choice.None?
    ensures SymStrWith(cfg, u, s, None) == SymStr(cfg, u, s)
  {
    hide WellFormed, SymVis, PickStr, SymRange, Eval, NumOrZero;
    assert SymStr(cfg, u, s) == SymStrWith(cfg, u, s, u.TextOf(s));
  }

  lemma LeftOutSelection(cfg: Config, u: User, c: nat)
    requires WellFormed(cfg) && Modules(cfg, u) == 0 && c in cfg.choices && Selection(cfg, u, c).Some?
    requires Selection(cfg, u, c).value !in MinKept(cfg, u)
    ensures SelectionWith(cfg, u, c, None) == Selection(cfg, u, c)
  {
    var m := Selection(cfg, u, c).value;
    assert Selection(cfg, u, c) == SelectionWith(cfg, u, c, u.SelectionOf(c));
    assert Mode(cfg, u, c) == 2;
    SelectionFound(cfg, u, c);
    MemberValue(cfg, u, c, m);
    SelectedIsY(cfg, u, c, m);
    assert SymStr(cfg, u, m) == SymStrWith(cfg, u, m, u.TextOf(m));
    assert cfg.syms[m].kind.Logical() by { assert ChoiceOk(cfg, c); }
    hide WellFormed, Modules, SymVis, SymTri, DefaultFrom, Mode;
  }

  lemma MinEnough(cfg: Config, u: User)
    requires WellFormed(cfg) && UserOk(cfg, u) && Writable(cfg, u) && PromptsDepend(cfg, u)
    ensures Enough(cfg, u, MinKept(cfg, u)) <==>
            forall s :: s in cfg.syms ==> NotHeldBack(cfg, u, s) && (MinKeeps(cfg, u, s) ==> KeyCarries(cfg, u, s))
  {
    var kept := MinKept(cfg, u);
    hide WellFormed, UserOk, PromptsDepend, Modules, SymTri, SymStr, SymTriWith, SymStrWith, Selection,
         SelectionWith, KeyCarries, MinKeeps;
    forall s | s in cfg.syms && s !in kept && cfg.syms[s].kind.Logical() && cfg.syms[s].choice.None?
      ensures SymTriWith(cfg, u, s, None) == SymTri(cfg, u, s)
    {
      LeftOutTri(cfg, u, s);
    }
    forall c | c in cfg.choices && Selection(cfg, u, c).Some? && Selection(cfg, u, c).value !in kept
      ensures SelectionWith(cfg, u, c, None) == Selection(cfg, u, c)
    {
      LeftOutSelection(cfg, u, c);
    }
    forall s | s in cfg.syms && !cfg.syms[s].kind.Logical()
      ensures s !in kept && NotHeldBack(cfg, u, s) ==> SymStrWith(cfg, u, s, None) == SymStr(cfg, u, s)
      ensures (s !in kept ==> SymStrWith(cfg, u, s, None) == SymStr(cfg, u, s)) ==> NotHeldBack(cfg, u, s)
    {
      HeldBackIsLeftOut(cfg, u, s);
      if s !in kept && NotHeldBack(cfg, u, s) { LeftOutStr(cfg, u, s); }
    }
    hide MinKept;
  }

  /** A symbol that is held back has no entry; symbols in choices are logical. */
  lemma HeldBackIsLeftOut(cfg: Config, u: User, s: string)
    requires WellFormed(cfg) && s in cfg.syms && !cfg.syms[s].kind.Logical()
    ensures cfg.syms[s].choice.None?
    ensures !NotHeldBack(cfg, u, s) ==> !MinKeeps(cfg, u, s)
  {}

  // What is left out of a minimal configuration depends on values only

  /** States with the same values agree on what any stage is computed from. */
  lemma SameStage(cfg: Config, u: User, u': User, l: nat)
    requires WellFormed(cfg) && Writable(cfg, u) && SameValues(cfg, u, u')
    ensures UpTo(cfg, u, l) == UpTo(cfg, u', l) && ModesKept(cfg, u, u', l) && ModesKept(cfg, u', u', l)
  {
    hide WellFormed, SameValues, UpTo, Modules;
    SameUpTo(cfg, u, u', l);
    ModesIrrelevant(cfg, u, u', l);
  }

  lemma SameEval(cfg: Config, u: User, u': User, e: Expr)
    requires WellFormed(cfg) && Writable(cfg, u) && SameValues(cfg, u, u')
    ensures Eval(cfg, u', e) == Eval(cfg, u, e)
  {
    hide WellFormed, Writable, SameValues, UpTo, ModesKept, Eval, TryEval, Level;
    var l := Level(cfg, e);
    SameStage(cfg, u, u', l);
    EvalTotal(cfg, u, u', l, e);
    EvalTotal(cfg, u', u', l, e);
  }

  lemma SameStrDefault(cfg: Config, u: User, u': User, s: string)
    requires WellFormed(cfg) && Writable(cfg, u) && SameValues(cfg, u, u') && s in cfg.syms
    ensures StrDefault(cfg, u', s) == StrDefault(cfg, u, s)
  {
    hide WellFormed, Writable, SameValues, UpTo, ModesKept, Eval, PickTri, TryPickTri, PickStr, TryPickStr, ActsAsBool,
         TryActsAsBool, TriText;
    var d, l := cfg.syms[s], StrLevel(cfg, s);
    SameStage(cfg, u, u', l);
    if d.kind.Logical() {
      PickTriTotal(cfg, u, u', l, s);
      PickTriTotal(cfg, u', u', l, s);
      SameEval(cfg, u, u', d.revDep);
      SameEval(cfg, u, u', d.weakRevDep);
      ActsAsBoolTotal(cfg, u, u', l, s);
      ActsAsBoolTotal(cfg, u', u', l, s);
    } else {
      PickStrTotal(cfg, u, u', l, s);
      PickStrTotal(cfg, u', u', l, s);
    }
  }

  lemma SameDefaultFrom(cfg: Config, u: User, u': User, c: nat)
    requires WellFormed(cfg) && Writable(cfg, u) && SameValues(cfg, u, u') && c in cfg.choices
    ensures DefaultFrom(cfg, u', c, cfg.choices[c].defaults) == DefaultFrom(cfg, u, c, cfg.choices[c].defaults)
  {
    hide WellFormed, Writable, SameValues, UpTo, ModesKept, DefaultFrom, TryDefaultFrom;
    var ds, l := cfg.choices[c].defaults, SelLevel(cfg, c);
    SameStage(cfg, u, u', l);
    DefaultFromTotal(cfg, u, u', l, c, ds);
    DefaultFromTotal(cfg, u', u', l, c, ds);
  }

  lemma SameSym(cfg: Config, u: User, u': User, s: string)
    requires WellFormed(cfg) && SameValues(cfg, u, u') && s in cfg.syms
    ensures SymVis(cfg, u', s) == SymVis(cfg, u, s)
    ensures SymTri(cfg, u', s) == SymTri(cfg, u, s) && SymStr(cfg, u', s) == SymStr(cfg, u, s)
  {
    hide WellFormed, SymVis, SymTri, SymStr, Selection;
    assert Sym(s) in Defined(cfg);
    assert Vis(cfg, u', Sym(s)) == Vis(cfg, u, Sym(s));
  }

  lemma SameMinKept(cfg: Config, u: User, u': User)
    requires WellFormed(cfg) && Writable(cfg, u) && SameValues(cfg, u, u')
    ensures MinKept(cfg, u') == MinKept(cfg, u)
  {
    hide WellFormed, Writable, SameValues, Eval, StrDefault, DefaultFrom, SymVis, SymTri, SymStr;
    forall s | s in cfg.syms ensures MinKeeps(cfg, u', s) == MinKeeps(cfg, u, s) {
      var c := cfg.syms[s].choice;
      SameSym(cfg, u, u', s);
      SameEval(cfg, u, u', cfg.syms[s].revDep);
      SameStrDefault(cfg, u, u', s);
      if c.Some? && c.value in cfg.choices { SameDefaultFrom(cfg, u, u', c.value); }
    }
    hide MinKeeps;
  }

  /** Minimal configurations: although default values are left out, every value comes back, from any
      prior state, if and only if no text or number is held back and the visible keys that are
      written consist of key characters; and then writing again gives the same lines. */
  lemma MinConfigRoundTrip(cfg: Config, u: User, u0: User, lines: seq<string>)
    requires WellFormed(cfg) && UserOk(cfg, u) && UserOk(cfg, u0) && Writable(cfg, u) && PromptsDepend(cfg, u)
    requires Significant(lines) == Significant(MinConfigLines(cfg, u))
    ensures SameValues(cfg, u, LoadReplace(cfg, u0, lines)) <==>
            forall s :: s in cfg.syms ==> NotHeldBack(cfg, u, s) && (MinKeeps(cfg, u, s) ==> KeyCarries(cfg, u, s))
    ensures SameValues(cfg, u, LoadReplace(cfg, u0, lines)) ==>
              MinConfigLines(cfg, LoadReplace(cfg, u0, lines)) == MinConfigLines(cfg, u)
  {
    assert forall s :: s in cfg.symOrder ==> s in cfg.syms;
    hide WellFormed, UserOk, Writable, Enough, KeyCarries, NotHeldBack, MinKeeps, MinKept, Reloaded, LoadReplace,
         SameValues, PromptsDepend, EntriesOf;
    var kept := MinKept(cfg, u);
    FileReloads(cfg, u, u0, kept, lines);
    MinEnough(cfg, u);
    if Enough(cfg, u, kept) { EnoughSuffices(cfg, u, kept); }
    var u' := LoadReplace(cfg, u0, lines);
    if SameValues(cfg, u, u') {
      EnoughNeeded(cfg, u, kept);
      SameMinKept(cfg, u, u');
      SameEntries(cfg, u, u', cfg.symOrder, kept);
    }
  }

  /** The same for text files. */
  lemma MinTextRoundTrip(cfg: Config, u: User, u0: User)
    requires WellFormed(cfg) && UserOk(cfg, u) && UserOk(cfg, u0) && Writable(cfg, u) && PromptsDepend(cfg, u)
    requires forall line :: line in MinConfigLines(cfg, u) ==> OneLine(line)
    ensures var text := JoinLines(MinConfigLines(cfg, u));
            var u' := LoadReplace(cfg, u0, SplitLines(text));
            && (SameValues(cfg, u, u') <==>
                forall s :: s in cfg.syms ==>
                              NotHeldBack(cfg, u, s) && (MinKeeps(cfg, u, s) ==> KeyCarries(cfg, u, s)))
            && (SameValues(cfg, u, u') ==> JoinLines(MinConfigLines(cfg, u')) == text)
  {
    hide WellFormed, UserOk, Writable, MinConfigLines, LoadReplace, SameValues, KeyCarries, NotHeldBack, MinKeeps,
         PromptsDepend, JoinLines, SplitLines, OneLine;
    SplitJoin(MinConfigLines(cfg, u));
    MinConfigRoundTrip(cfg, u, u0, MinConfigLines(cfg, u));
  }

  // Minimal configurations are minimal

  /** Without its own assignment `s`, or the selection of its choice, would be something else. */
  ghost predicate Needed(cfg: Config, u: User, s: string)
    requires WellFormed(cfg) && s in cfg.syms
  {
    var d := cfg.syms[s];
    if d.choice.Some? then SelectionWith(cfg, u, d.choice.value, None) != Selection(cfg, u, d.choice.value)
    else if d.kind.Logical() then SymTriWith(cfg, u, s, None).val != SymTri(cfg, u, s).val
    else SymStrWith(cfg, u, s, None).val != SymStr(cfg, u, s).val
  }

  /** The default of a number is outside its range, and the number is the bound taken instead. */
  ghost predicate ClampedDefault(cfg: Config, u: User, s: string)
    requires WellFormed(cfg) && s in cfg.syms && cfg.syms[s].kind.Numeric()
  {
    var range, base := SymRange(cfg, u, s), cfg.syms[s].kind.Base();
    var k := Number(cfg, StrDefault(cfg, u, s), base);
    range.Some? &&
    if k < range.value.0 then SymStr(cfg, u, s).val == cfg.show(range.value.0, base)
    else k > range.value.1 && SymStr(cfg, u, s).val == cfg.show(range.value.1, base)
  }

  /** The entries that are written although they are not needed: a tristate symbol that is the default of
      its choice, and a number whose default is outside its range. */
  ghost predicate Surplus(cfg: Config, u: User, s: string)
    requires WellFormed(cfg) && s in cfg.syms
  {
    var d := cfg.syms[s];
    if d.choice.Some? then
      && d.kind == Tristate && d.choice.value in cfg.choices
      && DefaultFrom(cfg, u, d.choice.value, cfg.choices[d.choice.value].defaults) == Some(s)
    else d.kind.Numeric() && ClampedDefault(cfg, u, s)
  }

  lemma KeptPlain(cfg: Config, u: User, s: string)
    requires WellFormed(cfg) && PromptsDepend(cfg, u) && s in cfg.syms
    requires cfg.syms[s].kind.Logical() && cfg.syms[s].choice.None? && MinKeeps(cfg, u, s)
    ensures SymTriWith(cfg, u, s, None).val != SymTri(cfg, u, s).val
  {
    assert Eval(cfg, u, cfg.syms[s].directDep) != 0;
    assert SymStr(cfg, u, s) == SymStrWith(cfg, u, s, u.TextOf(s));
    hide WellFormed, Modules, SymVis, ActsAsBool, PickTri, Eval, PromptsDepend;
    assert SymTri(cfg, u, s) == SymTriWith(cfg, u, s, u.TriOf(s));
  }

  lemma KeptText(cfg: Config, u: User, s: string)
    requires WellFormed(cfg) && s in cfg.syms && !cfg.syms[s].kind.Logical() && cfg.syms[s].choice.None?
    requires cfg.syms[s].kind != Unknown && MinKeeps(cfg, u, s)
    ensures SymStrWith(cfg, u, s, None).val != SymStr(cfg, u, s).val <==>
            !(cfg.syms[s].kind.Numeric() && ClampedDefault(cfg, u, s))
  {
    hide WellFormed, SymVis, PickStr, SymRange, Eval;
    assert SymStr(cfg, u, s) == SymStrWith(cfg, u, s, u.TextOf(s));
  }

  lemma KeptMember(cfg: Config, u: User, s: string, c: nat)
    requires WellFormed(cfg) && Writable(cfg, u) && s in cfg.syms && cfg.syms[s].choice == Some(c)
    requires MinKeeps(cfg, u, s)
    ensures Needed(cfg, u, s) <==> !Surplus(cfg, u, s)
  {
    SymFacts(cfg, s);
    ChoiceFacts(cfg, c);
    MemberOf(cfg, s, c);
    SpelledOut(cfg, u, s);
    NoMVisibility(cfg, u, s);
    hide WellFormed, Modules, SymVis, SymTri, SymStr, DefaultFrom, Mode, Eval, Writable;
    MemberValue(cfg, u, c, s);
    assert Selection(cfg, u, c) == SelectionWith(cfg, u, c, u.SelectionOf(c));
  }

  lemma MemberOf(cfg: Config, s: string, c: nat)
    requires WellFormed(cfg) && s in cfg.syms && cfg.syms[s].choice == Some(c)
    ensures c in cfg.choices && s in cfg.choices[c].syms && cfg.syms[s].kind.Logical()
  {
    assert SymOk(cfg, s) && ChoiceOk(cfg, c);
  }

  /** Every entry of a minimal configuration is needed, if and only if it is not one of the two kinds of
      surplus entries. */
  lemma MinimalEntries(cfg: Config, u: User, s: string)
    requires WellFormed(cfg) && Writable(cfg, u) && PromptsDepend(cfg, u)
    requires s in cfg.syms && cfg.syms[s].kind != Unknown && MinKeeps(cfg, u, s)
    ensures Needed(cfg, u, s) <==> !Surplus(cfg, u, s)
  {
    hide WellFormed, Writable, PromptsDepend, MinKeeps, SymTri, SymStr, SymTriWith, SymStrWith, ClampedDefault,
         Selection, SelectionWith, DefaultFrom;
    if cfg.syms[s].choice.Some? {
      KeptMember(cfg, u, s, cfg.syms[s].choice.value);
    } else if cfg.syms[s].kind.Logical() {
      KeptPlain(cfg, u, s);
    } else {
      KeptText(cfg, u, s);
    }
  }
}
