/** Whole runs: any sequence of assignments, loads, reads and writes. */
module KconfigRuns {
  import opened Basics
  import opened KconfigModel
  import opened KconfigValues
  import opened KconfigCaches
  import opened KconfigCoherence
  import opened KconfigAssignments
  import opened KconfigText
  import opened KconfigEngine

  datatype Op =
    | Set(s: string, v: UserValue)
    | Unset(s: string)
    | SetModeOf(c: nat, t: Tri)
    | UnsetModeOf(c: nat)
    | Load(lines: seq<string>, replace: bool)
    | ReadTri(s: string)
    | ReadStr(s: string)
    | ReadVis(i: Item)
    | ReadAssignable(i: Item)
    | ReadMode(c: nat)
    | ReadSelection(c: nat)
    | WriteFull
    | WriteMin

  datatype Answer =
    | Done(accepted: bool)
    | Value(t: Tri)
    | String(text: string)
    | Values(ts: seq<Tri>)
    | Chosen(sel: Option<string>)
    | Lines(lines: seq<string>)

  /** What an operation does and answers when nothing is cached. */
  function Step(cfg: Config, st: Session, op: Op): (Session, Answer)
    requires WellFormed(cfg)
  {
    match op
    case Set(s, v) => var (st', ok) := SetSym(cfg, st, s, v); (st', Done(ok))
    case Unset(s) => (Session(UnsetSym(st.u, s), st.marks), Done(true))
    case SetModeOf(c, t) => var (st', ok) := SetMode(cfg, st, c, t); (st', Done(ok))
    case UnsetModeOf(c) => (Session(UnsetChoice(st.u, c), st.marks), Done(true))
    case Load(lines, replace) =>
      if replace then
        (Session(LoadReplace(cfg, st.u, lines), LoadLines(cfg, Session(st.u, {}), lines).marks), Done(true))
      else (LoadLines(cfg, st, lines), Done(true))
    case ReadTri(s) => (st, Value(SymTri(cfg, st.u, s).val))
    case ReadStr(s) => (st, String(SymStr(cfg, st.u, s).val))
    case ReadVis(i) => (st, Value(Vis(cfg, st.u, i)))
    case ReadAssignable(i) => (st, Values(Assignable(cfg, st.u, i)))
    case ReadMode(c) => (st, Value(Mode(cfg, st.u, c)))
    case ReadSelection(c) => (st, Chosen(Selection(cfg, st.u, c)))
    case WriteFull => (st, Lines(ConfigLines(cfg, st.u)))
    case WriteMin => (st, Lines(MinConfigLines(cfg, st.u)))
  }

  function After(cfg: Config, st: Session, ops: seq<Op>): Session
    requires WellFormed(cfg)
  {
    if ops == [] then st else Step(cfg, After(cfg, st, ops[..|ops| - 1]), ops[|ops| - 1]).0
  }

  function Answers(cfg: Config, st: Session, ops: seq<Op>): seq<Answer>
    requires WellFormed(cfg)
  {
    if ops == [] then []
    else Answers(cfg, st, ops[..|ops| - 1]) + [Step(cfg, After(cfg, st, ops[..|ops| - 1]), ops[|ops| - 1]).1]
  }

  method ReadValues(k: Kconfig, op: Op) returns (a: Answer)
    requires k.Valid() && k.Ready() && (op.ReadTri? || op.ReadStr? || op.ReadVis?)
    modifies k
    ensures k.Valid() && k.Ready()
    ensures (k.Now(), a) == Step(k.config, old(k.Now()), op)
  {
    hide WellFormed, UserOk, Justified, SymTri, SymStr, Vis;
    match op
    case ReadTri(s) =>
      var t := k.ReadTri(s);
      a := Value(t);
    case ReadStr(s) =>
      var text := k.ReadText(s);
      a := String(text.val);
    case ReadVis(i) =>
      var t := k.ReadVisibility(i);
      a := Value(t);
  }

  method ReadChoices(k: Kconfig, op: Op) returns (a: Answer)
    requires k.Valid() && k.Ready() && (op.ReadAssignable? || op.ReadMode? || op.ReadSelection?)
    modifies k
    ensures k.Valid() && k.Ready()
    ensures (k.Now(), a) == Step(k.config, old(k.Now()), op)
  {
    hide WellFormed, UserOk, Justified, Assignable, Selection, Mode;
    match op
    case ReadAssignable(i) =>
      var ts := k.ReadAssignable(i);
      a := Values(ts);
    case ReadMode(c) =>
      var t := k.ReadMode(c);
      a := Value(t);
    case ReadSelection(c) =>
      var sel := k.ReadSelection(c);
      a := Chosen(sel);
  }

  method Change(k: Kconfig, op: Op) returns (a: Answer)
    requires k.Valid() && k.Ready() && (op.Set? || op.Unset? || op.SetModeOf? || op.UnsetModeOf?)
    modifies k
    ensures k.Valid() && k.Ready()
    ensures (k.Now(), a) == Step(k.config, old(k.Now()), op)
  {
    k.ValidParts();
    hide Kconfig.Valid, Kconfig.Ready, WellFormed, Justified, UserOk, SetSym, SetMode;
    match op
    case Set(s, v) =>
      var ok := k.SetValue(s, v);
      a := Done(ok);
    case Unset(s) =>
      k.UnsetValue(s);
      a := Done(true);
    case SetModeOf(c, t) =>
      var ok := k.SetChoiceMode(c, t);
      a := Done(ok);
    case UnsetModeOf(c) =>
      k.UnsetChoiceMode(c);
      a := Done(true);
  }

  method Exchange(k: Kconfig, op: Op) returns (a: Answer)
    requires k.Valid() && k.Ready() && (op.Load? || op.WriteFull? || op.WriteMin?)
    modifies k
    ensures k.Valid() && k.Ready()
    ensures (k.Now(), a) == Step(k.config, old(k.Now()), op)
  {
    hide Kconfig.Valid, Kconfig.Ready, WellFormed, LoadLines, LoadReplace, ConfigLines, MinConfigLines;
    k.ValidParts();
    match op
    case Load(lines, replace) =>
      k.LoadConfig(lines, replace);
      a := Done(true);
    case WriteFull =>
      var lines := k.WriteConfig();
      a := Lines(lines);
    case WriteMin =>
      var lines := k.WriteMinConfig();
      a := Lines(lines);
  }

  /** One operation on the engine answers and does what the cache-free reading says. */
  method Perform(k: Kconfig, op: Op) returns (a: Answer)
    requires k.Valid() && k.Ready()
    modifies k
    ensures k.Valid() && k.Ready()
    ensures (k.Now(), a) == Step(k.config, old(k.Now()), op)
  {
    k.ValidParts();
    hide Kconfig.Valid, Kconfig.Ready, WellFormed, Step;
    match op
    case Set(_, _) => a := Change(k, op);
    case Unset(_) => a := Change(k, op);
    case SetModeOf(_, _) => a := Change(k, op);
    case UnsetModeOf(_) => a := Change(k, op);
    case ReadTri(_) => a := ReadValues(k, op);
    case ReadStr(_) => a := ReadValues(k, op);
    case ReadVis(_) => a := ReadValues(k, op);
    case ReadAssignable(_) => a := ReadChoices(k, op);
    case ReadMode(_) => a := ReadChoices(k, op);
    case ReadSelection(_) => a := ReadChoices(k, op);
    case _ => a := Exchange(k, op);
  }

  /** The caches are never noticed: from any valid state, any sequence of operations gives the
      cache-free answers, ends in the cache-free session, and leaves only cache-free values cached. */
  method Run(k: Kconfig, ops: seq<Op>) returns (answers: seq<Answer>)
    requires k.Valid() && k.Ready()
    modifies k
    ensures k.Valid() && k.Ready()
    ensures k.Now() == After(k.config, old(k.Now()), ops)
    ensures answers == Answers(k.config, old(k.Now()), ops)
    ensures Coherent(k.config, k.State(), k.Caches())
  {
    answers := [];
    k.ValidParts();
    hide Kconfig.Valid, Kconfig.Ready, WellFormed, Justified, UserOk, Step;
    for n := 0 to |ops|
      invariant k.Valid() && k.Ready()
      invariant k.Now() == After(k.config, old(k.Now()), ops[..n])
      invariant answers == Answers(k.config, old(k.Now()), ops[..n])
    {
      var a := Perform(k, ops[n]);
      assert ops[..n + 1][..n] == ops[..n];
      answers := answers + [a];
    }
    assert ops[..|ops|] == ops;
    k.ValidParts();
    JustifiedIsCoherent(k.config, k.State(), k.Caches());
  }
}
