/** What assignments do to the user state. A session is that state together with the marks that say
    which items were set since the marks were last cleared. */
module KconfigAssignments {
  import opened Basics
  import opened KconfigModel
  import opened KconfigCaches

  datatype Session = Session(u: User, marks: set<Item>)

  /** For logical symbols "n", "m" and "y" may be given as text. */
  function Normal(kind: Kind, v: UserValue): UserValue {
    if !kind.Logical() then v
    else if v == UserText("n") then UserTri(0)
    else if v == UserText("m") then UserTri(1)
    else if v == UserText("y") then UserTri(2)
    else v
  }

  /** Symbol.set_value(): the new session, and whether the value was accepted. */
  function SetSym(cfg: Config, st: Session, s: string, v: UserValue): (Session, bool) {
    if s !in cfg.syms then (st, false) else
    var d := cfg.syms[s];
    var w := Normal(d.kind, v);
    if Get(st.u.val, s) == Some(w) && d.choice.None? then (Session(st.u, st.marks + {Sym(s)}), true)
    else if !ValidFor(cfg, d.kind, w) then (st, false)
    else (Stored(cfg, st, s, w), true)
  }

  /** Storing an accepted value; y also selects a choice symbol. */
  function Stored(cfg: Config, st: Session, s: string, w: UserValue): Session
    requires s in cfg.syms
  {
    var c := cfg.syms[s].choice;
    if c.Some? && w == UserTri(2) then
      Session(User(st.u.val[s := w], st.u.mode, st.u.sel[c.value := s]), st.marks + {Sym(s), Cho(c.value)})
    else Session(st.u.(val := st.u.val[s := w]), st.marks + {Sym(s)})
  }

  function UnsetSym(u: User, s: string): User {
    u.(val := u.val - {s})
  }

  /** Choice.set_value(): sets the mode. */
  function SetMode(cfg: Config, st: Session, c: nat, t: Tri): (Session, bool) {
    if c !in cfg.choices then (st, false)
    else if Get(st.u.mode, c) == Some(t) then (Session(st.u, st.marks + {Cho(c)}), true)
    else if !ValidFor(cfg, cfg.choices[c].kind, UserTri(t)) then (st, false)
    else (Session(st.u.(mode := st.u.mode[c := t]), st.marks + {Cho(c)}), true)
  }

  function UnsetChoice(u: User, c: nat): User {
    u.(mode := u.mode - {c}, sel := u.sel - {c})
  }

  lemma StoredOk(cfg: Config, st: Session, s: string, w: UserValue)
    requires WellFormed(cfg) && UserOk(cfg, st.u) && s in cfg.syms && ValidFor(cfg, cfg.syms[s].kind, w)
    ensures UserOk(cfg, Stored(cfg, st, s, w).u)
  {}

  lemma SetSymOk(cfg: Config, st: Session, s: string, v: UserValue)
    requires WellFormed(cfg) && UserOk(cfg, st.u)
    ensures UserOk(cfg, SetSym(cfg, st, s, v).0.u)
  {}

  lemma SetModeOk(cfg: Config, st: Session, c: nat, t: Tri)
    requires UserOk(cfg, st.u)
    ensures UserOk(cfg, SetMode(cfg, st, c, t).0.u)
  {}
}
