/** A replacing load compared with a merging load into an empty configuration. */
module KconfigReplaceLoad {
  import opened Basics
  import opened KconfigModel
  import opened KconfigCaches
  import opened KconfigAssignments
  import opened KconfigText

  /** `a` started from the user state `u0`, `b` from nothing; both went through the same lines. */
  ghost predicate InStep(u0: User, a: Session, b: Session) {
    && a.marks == b.marks
    && (forall s :: if Sym(s) in b.marks then Get(a.u.val, s) == Get(b.u.val, s)
                    else Get(a.u.val, s) == Get(u0.val, s) && s !in b.u.val)
    && (forall c: nat :: if Cho(c) in b.marks then Get(a.u.mode, c) == Get(b.u.mode, c)
                         else Get(a.u.mode, c) == Get(u0.mode, c) && c !in b.u.mode)
    && (forall c: nat :: Get(a.u.sel, c) == if c in b.u.sel then Get(b.u.sel, c) else Get(u0.sel, c))
    && (forall c :: c in b.u.sel ==> Cho(c) in b.marks)
  }

  lemma ModeInStep(cfg: Config, u0: User, a: Session, b: Session, c: nat, t: Tri)
    requires InStep(u0, a, b) && UserOk(cfg, a.u)
    ensures InStep(u0, SetMode(cfg, a, c, t).0, SetMode(cfg, b, c, t).0)
  {
    assert Get(a.u.mode, c) == Some(t) ==> ValidFor(cfg, cfg.choices[c].kind, UserTri(t));
    hide ValidFor, UserOk, InStep;
    SameModeInStep(u0, a, b, c, t);
    OldModeInStep(u0, a, b, c, t);
    NewModeInStep(u0, a, b, c, t);
  }

  /** The mode was there already in both. */
  lemma SameModeInStep(u0: User, a: Session, b: Session, c: nat, t: Tri)
    requires InStep(u0, a, b)
    ensures Get(a.u.mode, c) == Some(t) && Get(b.u.mode, c) == Some(t) ==>
              InStep(u0, Session(a.u, a.marks + {Cho(c)}), Session(b.u, b.marks + {Cho(c)}))
    ensures Get(b.u.mode, c) == Some(t) ==> Get(a.u.mode, c) == Some(t)
  {}

  /** The mode was there already in `a` only. */
  lemma OldModeInStep(u0: User, a: Session, b: Session, c: nat, t: Tri)
    requires InStep(u0, a, b)
    ensures Get(a.u.mode, c) == Some(t) ==>
              InStep(u0, Session(a.u, a.marks + {Cho(c)}),
                     Session(b.u.(mode := b.u.mode[c := t]), b.marks + {Cho(c)}))
  {}

  lemma NewModeInStep(u0: User, a: Session, b: Session, c: nat, t: Tri)
    requires InStep(u0, a, b)
    ensures InStep(u0, Session(a.u.(mode := a.u.mode[c := t]), a.marks + {Cho(c)}),
                   Session(b.u.(mode := b.u.mode[c := t]), b.marks + {Cho(c)}))
  {}

  lemma SymInStep(cfg: Config, u0: User, a: Session, b: Session, s: string, v: UserValue)
    requires WellFormed(cfg) && InStep(u0, a, b) && UserOk(cfg, a.u)
    requires s in cfg.syms && cfg.syms[s].choice.Some? && Normal(cfg.syms[s].kind, v) == UserTri(2) ==>
               Cho(cfg.syms[s].choice.value) in b.marks
    ensures InStep(u0, SetSym(cfg, a, s, v).0, SetSym(cfg, b, s, v).0)
  {
    if s in cfg.syms {
      var w := Normal(cfg.syms[s].kind, v);
      assert Get(a.u.val, s) == Some(w) ==> ValidFor(cfg, cfg.syms[s].kind, w);
      StoredInStep(cfg, u0, a, b, s, w);
      hide ValidFor, Normal, UserOk, Stored, WellFormed;
      if Get(a.u.val, s) == Some(w) && cfg.syms[s].choice.None? {
        KeptInStep(cfg, u0, a, b, s, w);
      }
    }
  }

  lemma StoredInStep(cfg: Config, u0: User, a: Session, b: Session, s: string, w: UserValue)
    requires InStep(u0, a, b) && s in cfg.syms
    requires cfg.syms[s].choice.Some? && w == UserTri(2) ==> Cho(cfg.syms[s].choice.value) in b.marks
    ensures InStep(u0, Stored(cfg, a, s, w), Stored(cfg, b, s, w))
  {}

  /** The value was there already: `a` only marks the symbol, `b` may have to store it. */
  lemma KeptInStep(cfg: Config, u0: User, a: Session, b: Session, s: string, w: UserValue)
    requires InStep(u0, a, b) && s in cfg.syms && cfg.syms[s].choice.None? && Get(a.u.val, s) == Some(w)
    ensures InStep(u0, Session(a.u, a.marks + {Sym(s)}), Stored(cfg, b, s, w))
    ensures Get(b.u.val, s) == Some(w) ==>
              InStep(u0, Session(a.u, a.marks + {Sym(s)}), Session(b.u, b.marks + {Sym(s)}))
  {}

  /** Mode y is valid for every choice. */
  lemma YMarksChoice(cfg: Config, b: Session, s: string)
    requires WellFormed(cfg) && s in cfg.syms && cfg.syms[s].choice.Some?
    ensures var c := cfg.syms[s].choice.value; Cho(c) in SetMode(cfg, b, c, 2).0.marks
  {
    assert SymOk(cfg, s) && ChoiceOk(cfg, cfg.syms[s].choice.value);
    hide WellFormed;
  }

  lemma TriInStep(cfg: Config, u0: User, a: Session, b: Session, s: string, t: Tri)
    requires WellFormed(cfg) && InStep(u0, a, b) && UserOk(cfg, a.u) && s in cfg.syms
    ensures InStep(u0, LoadTri(cfg, a, s, t), LoadTri(cfg, b, s, t)) && UserOk(cfg, LoadTri(cfg, a, s, t).u)
  {
    hide WellFormed, InStep, UserOk, SetSym, SetMode;
    var c := cfg.syms[s].choice;
    var a1, b1 := a, b;
    if c.Some? && t != 0 {
      ModeInStep(cfg, u0, a, b, c.value, t);
      SetModeOk(cfg, a, c.value, t);
      a1, b1 := SetMode(cfg, a, c.value, t).0, SetMode(cfg, b, c.value, t).0;
      YMarksChoice(cfg, b, s);
    }
    SymInStep(cfg, u0, a1, b1, s, UserTri(t));
    SetSymOk(cfg, a1, s, UserTri(t));
  }

  lemma LineInStep(cfg: Config, u0: User, a: Session, b: Session, line: string)
    requires WellFormed(cfg) && InStep(u0, a, b) && UserOk(cfg, a.u)
    ensures InStep(u0, LoadLine(cfg, a, line), LoadLine(cfg, b, line)) && UserOk(cfg, LoadLine(cfg, a, line).u)
  {
    var stripped := RStrip(line);
    hide InStep, UserOk, SetSym, LoadTri, SetMatch, UnsetMatch, RStrip, WellFormed, TriOfChar, QuotedMatch, Unescape,
         KeyPrefix;
    match SetMatch(stripped) {
      case Some((s, val)) => ValueInStep(cfg, u0, a, b, s, val);
      case None =>
        if UnsetMatch(stripped).Some? {
          var s := UnsetMatch(stripped).value;
          SymInStep(cfg, u0, a, b, s, UserTri(0));
          SetSymOk(cfg, a, s, UserTri(0));
        }
    }
  }

  lemma ValueInStep(cfg: Config, u0: User, a: Session, b: Session, s: string, val: string)
    requires WellFormed(cfg) && InStep(u0, a, b) && UserOk(cfg, a.u)
    ensures InStep(u0, LoadValue(cfg, a, s, val), LoadValue(cfg, b, s, val)) && UserOk(cfg, LoadValue(cfg, a, s, val).u)
  {
    hide InStep, UserOk, SetSym, LoadTri, WellFormed, TriOfChar, QuotedMatch, Unescape, KeyPrefix;
    if s in cfg.syms {
      if cfg.syms[s].kind.Logical() {
        if val != [] { TriInStep(cfg, u0, a, b, s, TriOfChar(val[0])); }
      } else {
        var text := match cfg.syms[s].kind
          case Str => if QuotedMatch(val).Some? then Unescape(QuotedMatch(val).value) else ""
          case Key => Unescape(KeyPrefix(val))
          case _ => val;
        SymInStep(cfg, u0, a, b, s, UserText(text));
        SetSymOk(cfg, a, s, UserText(text));
      }
    }
  }

  lemma {:induction false} LinesInStep(cfg: Config, u0: User, lines: seq<string>)
    requires WellFormed(cfg) && UserOk(cfg, u0)
    ensures var a := LoadLines(cfg, Session(u0, {}), lines);
            InStep(u0, a, LoadLines(cfg, Session(NO_USER, {}), lines)) && UserOk(cfg, a.u)
  {
    hide WellFormed, UserOk, LoadLine;
    if lines != [] {
      LinesInStep(cfg, u0, lines[..|lines| - 1]);
      hide InStep;
      LineInStep(cfg, u0, LoadLines(cfg, Session(u0, {}), lines[..|lines| - 1]),
                 LoadLines(cfg, Session(NO_USER, {}), lines[..|lines| - 1]), lines[|lines| - 1]);
    }
  }

  /** The line assigns a value that starts with `t` to a symbol of the choice. */
  predicate Assigns(cfg: Config, line: string, c: nat, t: char) {
    var m := SetMatch(RStrip(line));
    && m.Some? && m.value.0 in cfg.syms && cfg.syms[m.value.0].choice == Some(c)
    && m.value.1 != [] && m.value.1[0] == t
    && (t == 'm' ==> cfg.syms[m.value.0].kind == Tristate)
  }

  /** The choice had a selection, and the file sets a symbol of it to m but none to y. */
  ghost predicate Leftover(cfg: Config, u0: User, lines: seq<string>, c: nat) {
    && c in u0.sel && c in cfg.choices && cfg.choices[c].kind == Tristate
    && (exists line :: line in lines && Assigns(cfg, line, c, 'm'))
    && (forall line :: line in lines ==> !Assigns(cfg, line, c, 'y'))
  }

  /** The line sets the mode of the choice. */
  predicate Sets(cfg: Config, line: string, c: nat) {
    Assigns(cfg, line, c, 'y') || (Assigns(cfg, line, c, 'm') && c in cfg.choices && cfg.choices[c].kind == Tristate)
  }

  /** A mode is only there for a marked choice. */
  predicate ModeMarked(st: Session, c: nat) { c in st.u.mode ==> Cho(c) in st.marks }

  lemma ModeMarks(cfg: Config, st: Session, c: nat, t: Tri, x: nat)
    requires ModeMarked(st, x) && c in cfg.choices && cfg.choices[c].kind.Logical() && t != 0
    ensures var st' := SetMode(cfg, st, c, t).0;
            && ModeMarked(st', x) && st'.u.sel == st.u.sel
            && (Cho(x) in st'.marks <==> Cho(x) in st.marks || (x == c && (t == 2 || cfg.choices[c].kind == Tristate)))
  {}

  /** Other assignments than y do not touch the choice of the symbol. */
  lemma SymLeaves(cfg: Config, st: Session, s: string, v: UserValue, x: nat)
    requires ModeMarked(st, x) && s in cfg.syms
    requires Normal(cfg.syms[s].kind, v) != UserTri(2) || cfg.syms[s].choice != Some(x)
    ensures var st' := SetSym(cfg, st, s, v).0;
            ModeMarked(st', x) && (x in st'.u.sel <==> x in st.u.sel) && (Cho(x) in st'.marks <==> Cho(x) in st.marks)
  {
    hide ValidFor, Normal;
  }

  /** y selects. */
  lemma SymSelects(cfg: Config, st: Session, s: string, x: nat)
    requires WellFormed(cfg) && s in cfg.syms && cfg.syms[s].choice == Some(x)
    ensures var st' := SetSym(cfg, st, s, UserTri(2)).0; x in st'.u.sel && Cho(x) in st'.marks
  {
    MemberIsLogical(cfg, s);
    hide WellFormed;
  }

  lemma ChoiceIsLogical(cfg: Config, s: string)
    requires WellFormed(cfg) && s in cfg.syms && cfg.syms[s].choice.Some?
    ensures var c := cfg.syms[s].choice.value; c in cfg.choices && cfg.choices[c].kind.Logical()
  {
    assert SymOk(cfg, s) && ChoiceOk(cfg, cfg.syms[s].choice.value);
    hide WellFormed;
  }

  lemma TriSets(cfg: Config, st: Session, s: string, t: Tri, x: nat)
    requires WellFormed(cfg) && ModeMarked(st, x) && s in cfg.syms
    ensures var st' := LoadTri(cfg, st, s, t); var c := cfg.syms[s].choice;
            && ModeMarked(st', x)
            && (x in st'.u.sel <==> x in st.u.sel || (c == Some(x) && t == 2))
            && (Cho(x) in st'.marks <==>
                  Cho(x) in st.marks || (c == Some(x) && (t == 2 || (t == 1 && cfg.choices[x].kind == Tristate))))
  {
    var c := cfg.syms[s].choice;
    if c.Some? { ChoiceIsLogical(cfg, s); }
    hide WellFormed, SetMode, SetSym, ModeMarked;
    var st1 := st;
    if c.Some? && t != 0 {
      ModeMarks(cfg, st, c.value, t, x);
      st1 := SetMode(cfg, st, c.value, t).0;
    }
    if c == Some(x) && t == 2 {
      SymSelects(cfg, st1, s, x);
      StillMarked(cfg, st1, s, x);
    } else {
      SymLeaves(cfg, st1, s, UserTri(t), x);
    }
  }

  lemma StillMarked(cfg: Config, st: Session, s: string, x: nat)
    requires ModeMarked(st, x)
    ensures ModeMarked(SetSym(cfg, st, s, UserTri(2)).0, x)
  {
    hide ValidFor;
  }

  /** What one line does to a choice. */
  lemma LineSets(cfg: Config, st: Session, line: string, x: nat)
    requires WellFormed(cfg) && ModeMarked(st, x)
    ensures var st' := LoadLine(cfg, st, line);
            && ModeMarked(st', x)
            && (x in st'.u.sel <==> x in st.u.sel || Assigns(cfg, line, x, 'y'))
            && (Cho(x) in st'.marks <==> Cho(x) in st.marks || Sets(cfg, line, x))
  {
    hide SetMatch, UnsetMatch, RStrip, QuotedMatch, Unescape, KeyPrefix, WellFormed, ModeMarked, SetSym, LoadTri;
    var m := SetMatch(RStrip(line));
    if m.Some? && m.value.0 in cfg.syms {
      var s, val := m.value.0, m.value.1;
      if cfg.syms[s].choice.Some? {
        MemberIsLogical(cfg, s);
        ChoiceIsLogical(cfg, s);
      }
      if cfg.syms[s].kind.Logical() {
        if val != [] { TriSets(cfg, st, s, TriOfChar(val[0]), x); }
      } else {
        forall text { SymLeaves(cfg, st, s, UserText(text), x); }
      }
    } else if m.None? && UnsetMatch(RStrip(line)).Some? {
      var s := UnsetMatch(RStrip(line)).value;
      if s in cfg.syms && cfg.syms[s].kind.Logical() { SymLeaves(cfg, st, s, UserTri(0), x); }
    }
  }

  /** What a file does to a choice, starting from nothing. */
  lemma {:induction false} LinesSet(cfg: Config, lines: seq<string>, x: nat)
    requires WellFormed(cfg)
    ensures var st := LoadLines(cfg, Session(NO_USER, {}), lines);
            && ModeMarked(st, x)
            && (x in st.u.sel <==> exists line :: line in lines && Assigns(cfg, line, x, 'y'))
            && (Cho(x) in st.marks <==> exists line :: line in lines && Sets(cfg, line, x))
  {
    hide WellFormed, LoadLine, Assigns, Sets;
    if lines != [] {
      var n := |lines| - 1;
      LinesSet(cfg, lines[..n], x);
      LineSets(cfg, LoadLines(cfg, Session(NO_USER, {}), lines[..n]), lines[n], x);
      assert lines == lines[..n] + [lines[n]];
    }
  }

  lemma LeftoverMeans(cfg: Config, u0: User, lines: seq<string>, c: nat)
    requires WellFormed(cfg)
    ensures var b := LoadLines(cfg, Session(NO_USER, {}), lines);
            Leftover(cfg, u0, lines, c) <==> Cho(c) in b.marks && c !in b.u.sel && c in u0.sel
  {
    LinesSet(cfg, lines, c);
    hide WellFormed, LoadLines, Assigns;
  }

  /** A replacing load from any state ends where a merging load into nothing ends, if and only if no
      choice has a left-over selection. */
  lemma ReplaceForgets(cfg: Config, u0: User, lines: seq<string>)
    requires WellFormed(cfg) && UserOk(cfg, u0)
    ensures LoadReplace(cfg, u0, lines) == LoadLines(cfg, Session(NO_USER, {}), lines).u <==>
            forall c: nat :: !Leftover(cfg, u0, lines, c)
  {
    hide WellFormed, UserOk, LoadLines, Leftover;
    LinesInStep(cfg, u0, lines);
    var a, b := LoadLines(cfg, Session(u0, {}), lines), LoadLines(cfg, Session(NO_USER, {}), lines);
    var r := UnsetUnmarked(a.u, a.marks);
    assert r.val == b.u.val;
    assert r.mode == b.u.mode;
    if forall c: nat :: !Leftover(cfg, u0, lines, c) {
      forall c: nat
        ensures c in r.sel <==> c in b.u.sel
        ensures c in r.sel ==> r.sel[c] == b.u.sel[c]
      {
        LeftoverMeans(cfg, u0, lines, c);
        assert Get(a.u.sel, c) == if c in b.u.sel then Get(b.u.sel, c) else Get(u0.sel, c);
      }
      assert r.sel == b.u.sel;
    } else {
      var c: nat :| Leftover(cfg, u0, lines, c);
      LeftoverMeans(cfg, u0, lines, c);
      assert c in r.sel && c !in b.u.sel;
    }
  }

  // Files that assign only y and n to choice symbols

  predicate OnlyYN(cfg: Config, line: string) {
    var m := SetMatch(RStrip(line));
    m.Some? && m.value.0 in cfg.syms && cfg.syms[m.value.0].choice.Some? && m.value.1 != [] ==> m.value.1[0] != 'm'
  }

  lemma MemberIsLogical(cfg: Config, s: string)
    requires WellFormed(cfg) && s in cfg.syms && cfg.syms[s].choice.Some?
    ensures cfg.syms[s].kind.Logical() && ValidFor(cfg, cfg.syms[s].kind, UserTri(2))
  {}

  /** Files of that kind replace whatever was there. */
  lemma ReplaceForgetsYN(cfg: Config, u0: User, lines: seq<string>)
    requires WellFormed(cfg) && UserOk(cfg, u0) && forall line :: line in lines ==> OnlyYN(cfg, line)
    ensures LoadReplace(cfg, u0, lines) == LoadLines(cfg, Session(NO_USER, {}), lines).u
  {
    hide WellFormed, UserOk, LoadLines, LoadReplace, SetMatch, RStrip;
    forall c: nat ensures !Leftover(cfg, u0, lines, c) {}
    ReplaceForgets(cfg, u0, lines);
  }
}
