/** The text of .config files: one line per assignment, and what loading such lines assigns. */
module KconfigText {
  import opened Basics
  import opened KconfigModel
  import opened KconfigValues
  import opened KconfigAssignments

  const PREFIX := "CONFIG_"
  const NOT_SET := " is not set"

  // Escaping

  /** str.replace() for a one-character pattern. */
  function Replace(s: string, c: char, sub: string): string {
    if s == [] then [] else (if s[0] == c then sub else [s[0]]) + Replace(s[1..], c, sub)
  }

  function Escape(s: string): string {
    Replace(Replace(s, '\\', "\\\\"), '"', "\\\"")
  }

  /** A backslash followed by any character but a line feed stands for that character. */
  function Unescape(s: string): string {
    if s == [] then []
    else if s[0] == '\\' && |s| > 1 && s[1] != '\n' then [s[1]] + Unescape(s[2..])
    else [s[0]] + Unescape(s[1..])
  }

  /** The contents of a quoted string whose opening quote has been read: up to the first quote that
      is not escaped. */
  function UntilQuote(s: string): Option<string> {
    if s == [] then None
    else if s[0] == '"' then Some([])
    else if s[0] == '\\' then
      if |s| == 1 || s[1] == '\n' then None
      else var rest :- UntilQuote(s[2..]); Some(s[..2] + rest)
    else var rest :- UntilQuote(s[1..]); Some([s[0]] + rest)
  }

  function QuotedMatch(s: string): Option<string> {
    if s == [] || s[0] != '"' then None else UntilQuote(s[1..])
  }

  predicate KeyChar(c: char) {
    'a' <= c <= 'z' || 'A' <= c <= 'Z' || '0' <= c <= '9' || c == '_'
  }

  function KeyPrefix(s: string): string {
    if s == [] || !KeyChar(s[0]) then [] else [s[0]] + KeyPrefix(s[1..])
  }

  function EscapeChar(c: char): string {
    if c == '\\' then "\\\\" else if c == '"' then "\\\"" else [c]
  }

  /** The two replacements in sequence escape character by character. */
  lemma {:induction false} EscapeByChar(c: char, s: string)
    ensures Escape([c] + s) == EscapeChar(c) + Escape(s)
  {
    assert ([c] + s)[1..] == s;
    ReplaceOver(if c == '\\' then "\\\\" else [c], Replace(s, '\\', "\\\\"), '"', "\\\"");
    if c == '\\' {
      assert "\\\\"[1..] == "\\" && "\\"[1..] == "";
      assert Replace("\\\\", '"', "\\\"") == "\\\\";
    } else {
      assert [c][1..] == "";
      assert Replace([c], '"', "\\\"") == EscapeChar(c);
    }
  }

  lemma {:induction false} ReplaceOver(s: string, t: string, c: char, sub: string)
    ensures Replace(s + t, c, sub) == Replace(s, c, sub) + Replace(t, c, sub)
  {
    if s == [] {
      assert s + t == t;
    } else {
      assert (s + t)[1..] == s[1..] + t;
      ReplaceOver(s[1..], t, c, sub);
    }
  }

  /** Quoting undoes itself, for every string and whatever follows: the match stops at the closing
      quote and unescaping gives the string back. */
  lemma QuotingRoundTrip(s: string, rest: string)
    ensures QuotedMatch("\"" + Escape(s) + "\"" + rest) == Some(Escape(s))
    ensures Unescape(Escape(s)) == s
  {
    UntilQuoteStops(s, rest);
    assert ("\"" + Escape(s) + "\"" + rest)[1..] == Escape(s) + "\"" + rest;
    UnescapeEscape(s);
  }

  lemma {:induction false} UntilQuoteStops(s: string, rest: string)
    ensures UntilQuote(Escape(s) + "\"" + rest) == Some(Escape(s))
  {
    if s == [] {
      assert Escape(s) + "\"" + rest == "\"" + rest;
    } else {
      var c, t := s[0], s[1..];
      assert s == [c] + t;
      EscapeByChar(c, t);
      UntilQuoteStops(t, rest);
      hide Escape;
      var text := Escape(s) + "\"" + rest;
      var tail := Escape(t) + "\"" + rest;
      assert text == EscapeChar(c) + tail;
      if c == '\\' || c == '"' {
        assert text[..2] == EscapeChar(c) && text[2..] == tail;
      } else {
        assert text[1..] == tail;
      }
    }
  }

  lemma {:induction false} UnescapeEscape(s: string)
    ensures Unescape(Escape(s)) == s
  {
    if s != [] {
      var c, t := s[0], s[1..];
      assert s == [c] + t;
      EscapeByChar(c, t);
      UnescapeEscape(t);
      hide Escape;
      assert Escape(s)[|EscapeChar(c)|..] == Escape(t);
    }
  }

  // Lines

  /** str.isspace() for one character. */
  predicate Blank(c: char) {
    var k := c as int;
    9 <= k <= 13 || 28 <= k <= 32 || k == 0x85 || k == 0xA0 || k == 0x1680 || 0x2000 <= k <= 0x200A
    || k == 0x2028 || k == 0x2029 || k == 0x202F || k == 0x205F || k == 0x3000
  }

  function RStrip(s: string): string {
    if s != [] && Blank(s[|s| - 1]) then RStrip(s[..|s| - 1]) else s
  }

  /** The index of the first `c`, or the length. */
  function Find(s: string, c: char): (i: nat)
    ensures i <= |s| && (i < |s| ==> s[i] == c) && forall j :: 0 <= j < i ==> s[j] != c
  {
    if s == [] || s[0] == c then 0 else 1 + Find(s[1..], c)
  }

  /** "CONFIG_name=value". */
  function SetMatch(line: string): Option<(string, string)> {
    if !(PREFIX <= line) then None else
    var rest := line[|PREFIX|..];
    var i := Find(rest, '=');
    if i == 0 || i == |rest| then None else Some((rest[..i], rest[i + 1..]))
  }

  /** "# CONFIG_name is not set". */
  function UnsetMatch(line: string): Option<string> {
    if !("# " + PREFIX <= line) then None else
    var rest := line[|PREFIX| + 2..];
    var i := Find(rest, ' ');
    if i == 0 || !(NOT_SET <= rest[i..]) then None else Some(rest[..i])
  }

  // Loading

  function TriOfChar(c: char): Tri { if c == 'y' then 2 else if c == 'm' then 1 else 0 }

  /** An assignment of n, m or y while loading: anything but n also sets the mode of the choice. */
  function LoadTri(cfg: Config, st: Session, s: string, t: Tri): Session
    requires s in cfg.syms
  {
    var c := cfg.syms[s].choice;
    var st' := if c.Some? && t != 0 then SetMode(cfg, st, c.value, t).0 else st;
    SetSym(cfg, st', s, UserTri(t)).0
  }

  /** "CONFIG_s=val". Of a logical value only the first character counts. */
  function LoadValue(cfg: Config, st: Session, s: string, val: string): Session {
    if s !in cfg.syms then st else
    match cfg.syms[s].kind
    case Bool => if val != [] && (val[0] == 'y' || val[0] == 'n') then LoadTri(cfg, st, s, TriOfChar(val[0])) else st
    case Tristate =>
      if val != [] && (val[0] == 'y' || val[0] == 'm' || val[0] == 'n') then LoadTri(cfg, st, s, TriOfChar(val[0]))
      else st
    case Str => (match QuotedMatch(val)
                 case Some(raw) => SetSym(cfg, st, s, UserText(Unescape(raw))).0
                 case None => st)
    case Key => SetSym(cfg, st, s, UserText(Unescape(KeyPrefix(val)))).0
    case _ => SetSym(cfg, st, s, UserText(val)).0
  }

  function LoadLine(cfg: Config, st: Session, line: string): Session {
    var stripped := RStrip(line);
    match SetMatch(stripped)
    case Some((s, val)) => LoadValue(cfg, st, s, val)
    case None =>
      match UnsetMatch(stripped)
      case Some(s) => if s in cfg.syms && cfg.syms[s].kind.Logical() then SetSym(cfg, st, s, UserTri(0)).0 else st
      case None => st
  }

  /** A merging load: lines are applied in order. */
  function LoadLines(cfg: Config, st: Session, lines: seq<string>): Session {
    if lines == [] then st
    else LoadLine(cfg, LoadLines(cfg, st, lines[..|lines| - 1]), lines[|lines| - 1])
  }

  /** Removing every assignment to an unmarked item. */
  function UnsetUnmarked(u: User, marks: set<Item>): User {
    User(map s | s in u.val && Sym(s) in marks :: u.val[s],
         map c | c in u.mode && Cho(c) in marks :: u.mode[c],
         map c | c in u.sel && Cho(c) in marks :: u.sel[c])
  }

  /** A replacing load: clear the marks, apply the lines, drop what they did not set. */
  function LoadReplace(cfg: Config, u: User, lines: seq<string>): User {
    var st := LoadLines(cfg, Session(u, {}), lines);
    UnsetUnmarked(st.u, st.marks)
  }

  // Writing

  /** Symbol.config_string without the line end; `None` for symbols that get no entry. */
  function ConfigLine(cfg: Config, u: User, s: string): Option<string>
    requires WellFormed(cfg)
  {
    var t := SymStr(cfg, u, s);
    if !t.write || s !in cfg.syms then None else Some(EntryOf(cfg.syms[s].kind, s, t.val))
  }

  function EntryOf(kind: Kind, s: string, val: string): string {
    if kind.Logical() && val == "n" then "# " + PREFIX + s + NOT_SET
    else if kind == Str then PREFIX + s + "=\"" + Escape(val) + "\""
    else PREFIX + s + "=" + val
  }

  /** The entries of the symbols in `kept`, in definition order. */
  function EntriesOf(cfg: Config, u: User, syms: seq<string>, kept: set<string>): seq<string>
    requires WellFormed(cfg)
  {
    if syms == [] then []
    else
      var s := syms[|syms| - 1];
      EntriesOf(cfg, u, syms[..|syms| - 1], kept) +
      (if s in kept && ConfigLine(cfg, u, s).Some? then [ConfigLine(cfg, u, s).value] else [])
  }

  /** What write_config() writes, without header and comments. */
  function ConfigLines(cfg: Config, u: User): seq<string>
    requires WellFormed(cfg)
  {
    EntriesOf(cfg, u, cfg.symOrder, cfg.syms.Keys)
  }

  /** _str_default(): what the minimal configuration takes to be the default. */
  function StrDefault(cfg: Config, u: User, s: string): string
    requires WellFormed(cfg) && s in cfg.syms
  {
    var d := cfg.syms[s];
    if d.kind.Logical() then
      if d.choice.Some? then "n"
      else
        var p := PickTri(cfg, u, s);
        var val: Tri := if p.Some? then Min(p.value.0, p.value.1) else 0;
        var most := Max(Max(Eval(cfg, u, d.revDep), Eval(cfg, u, d.weakRevDep)), val);
        TriText(if most == 1 && ActsAsBool(cfg, u, s) then 2 else most)
    else if d.kind == Unknown then ""
    else
      var p := PickStr(cfg, u, s);
      if p.Some? then p.value else ""
  }

  /** Whether the minimal configuration has an entry for `s`. */
  predicate MinKeeps(cfg: Config, u: User, s: string)
    requires WellFormed(cfg) && s in cfg.syms
  {
    var d := cfg.syms[s];
    && !(d.choice.None? && SymVis(cfg, u, s) <= Eval(cfg, u, d.revDep))
    && SymStr(cfg, u, s).val != StrDefault(cfg, u, s)
    && !(d.choice.Some? && d.choice.value in cfg.choices
         && !cfg.choices[d.choice.value].optional
         && DefaultFrom(cfg, u, d.choice.value, cfg.choices[d.choice.value].defaults) == Some(s)
         && d.kind == Bool
         && SymTri(cfg, u, s).val == 2)
  }

  function MinKept(cfg: Config, u: User): set<string>
    requires WellFormed(cfg)
  {
    set s | s in cfg.syms && MinKeeps(cfg, u, s)
  }

  /** What write_min_config() writes, without header. */
  function MinConfigLines(cfg: Config, u: User): seq<string>
    requires WellFormed(cfg)
  {
    EntriesOf(cfg, u, cfg.symOrder, MinKept(cfg, u))
  }
}
