# A verified model of the Kconfig engine and three C utilities

The project models, in Dafny 4.11, the configuration engine of `tools/kconfiglib/kconfiglib.py` and
three small imperative cores of the device code: the resumable file download, the tail queue macros
and the two checksums. `dafny verify dfyconfig.toml` checks everything.

## What is modelled

**Values and caches.** `Values.dfy` gives every value, visibility, mode, selection and assignable set
of symbols and choices as a recursive function of what the user assigned, without caches. `Engine.dfy`
is the code: a class whose methods compute the same things on demand, keep them in `cached*` fields,
and drop cached fields along the `dependents` graph when an assignment is made. The bridge is a local
invariant, `Justified` (`Caches.dfy`): each cached field is what the short-circuiting evaluation gives
when it may only look at other cached fields. Justified caches are coherent (`Coherence.dfy`),
survive growth and closed invalidation (`Invalidation.dfy`), and so every run of assignments, loads
and reads answers as if there were no cache (`Runs.dfy`).

**Laws of values.** `Meaning.dfy` says what each value, visibility, mode and selection is in terms of the
properties of the item. Choices are exclusive, assignable values are exactly those that can be set, and
an assignment that no item notices locally changes nothing globally (`Reassignment.dfy`, `Laws.dfy`).

**Text.** Escaping, `.config` lines, loading, replacing loads, full and minimal configurations, and
the incremental dependency sync (`ConfigText.dfy`, `ReplaceLoad.dfy`, `RoundTrip.dfy`, `Files.dfy`,
`SyncDeps.dfy`), printing and parsing of expressions on tokens (`ExprText.dfy`), macro expansion
(`Macros.dfy`) and its compositional meaning (`MacroMeaning.dfy`).

**Finalization.** The loop check (`LoopCheck.dfy`), the rewriting of the linked menu tree
(`MenuTree.dfy`, `MenuLinks.dfy`) with its submenus (`Submenus.dfy`), and dependency propagation with its meaning (`Propagation.dfy`,
`PropagationLaws.dfy`). `Finalized.dfy` derives from propagation what the laws of values ask of a
configuration.

**C utilities.** `Download.dfy`, `TailQueue.dfy`, and `Crc16.dfy` and `Crc32.dfy` over `BitStreams.dfy`.

`Basics.dfy` holds what several parts share. `Examples.dfy` holds concrete configurations on which a law
fails whose general form carries a condition.

## Hypotheses

- `WellFormed`: the dependency graph is acyclic once each choice is contracted with its symbols, and
  `MODULES` comes before all tristate items; defaults of a choice are members; members are bool or
  tristate. For configurations without choices this is what the loop check establishes
  (`KconfigLoopCheck.AcceptedIsWellFormed`).
- `PromptsInside`: all prompts of the symbols of a choice are inside it. Finalization establishes it
  (`KconfigFinalized.ChoicePromptsInside`).
- `PromptsDepend`: a visible symbol has direct dependencies that are not n. Finalization establishes
  it (`KconfigFinalized.VisibleMeansDepends`).
- `Writable`: modules are off, no choice is optional, no symbol takes its value from the environment,
  numbers do not end in a blank.
- `ShowParses`: a number that is printed is read back as the same number. Only `NumberInRange` needs it.
- Number parsing and printing, built-in macro functions, automatic menu dependencies, the network and
  the download handler are arbitrary functions or inputs.

## Where the code does less than it should

- `assignable` lists m for a symbol that is visible and selected to m while it is implied to y, but
  every assignment gives y (`AssignableExact`, `AssignableOff`). For members of a choice in m mode it is
  also off if they are selected, or implied to y (`MemberAssignable`).
- The value of a key is cut at the first character that is no letter, digit or underscore when it is
  loaded (`ConfigRoundTrip`, `ConfigLosesKey`).
- The minimal configuration takes every visible symbol whose visibility does not exceed what selects it
  for one that cannot be changed. That is right for bool and tristate symbols only
  (`MinConfigRoundTrip`, `MinConfigLosesText`). It also writes numbers that were clamped from a default
  outside their range, and tristate defaults of choices, although they need no entry (`MinimalEntries`,
  `MinConfigSurplus`).
- A replacing load keeps the old selection of a choice when the file sets some of its symbols to m and
  none to y (`ReplaceForgets`, `ReplaceKeepsSelection`).
- `sync_deps` reads the first group of a match that has no groups, so it raises if a line of auto.conf
  names a key symbol: the entry of such a symbol does, and so can a later line of a string value
  (`SyncFails`, `KeyNamesItself`, `SyncRaises`, `SyncRaisesOnText`).
- `sync_deps` touches a symbol on every run if its value contains a line break, since the entry is then
  not one line of auto.conf (`SyncExact`, `SyncTouchesTwoLines`).

## Model

| member | source | states |
|---|---|---|
| KconfigCoherence.EvalSound | tools/kconfiglib/kconfiglib.py:6013-6070 | whatever short-circuiting evaluation finds among justified cached values is the value of the expression without caches |
| KconfigCoherence.SymVisSound | tools/kconfiglib/kconfiglib.py:6314-6341 | the same for the visibility of a symbol |
| KconfigCoherence.TriSound | tools/kconfiglib/kconfiglib.py:4447-4525 | the same for the logical value of a symbol, with its write flag |
| KconfigCoherence.StrSound | tools/kconfiglib/kconfiglib.py:4307-4444 | the same for the string value of a symbol |
| KconfigCoherence.SelectionSound | tools/kconfiglib/kconfiglib.py:5449-5478 | the same for the selection of a choice |
| KconfigCoherence.AssignableSound | tools/kconfiglib/kconfiglib.py:4838-4882 | the same for assignable sets |
| KconfigCoherence.JustifiedIsCoherent | tools/kconfiglib/kconfiglib.py:4307-4543 | if each cached field is justified by other cached fields, all of them are the cache-free values |
| KconfigInvalidation.GrowthKeeps | tools/kconfiglib/kconfiglib.py:4447-4543 | filling caches keeps what is cached justified |
| KconfigInvalidation.InvalidationKeeps | tools/kconfiglib/kconfiglib.py:4890-4919 | after an assignment, dropping a set of items closed under cached dependents leaves only justified fields for the new assignments |
| KconfigEngine.Kconfig.constructor | tools/kconfiglib/kconfiglib.py:1113-1125 | starts with nothing assigned and nothing cached, in a state that satisfies the invariants of all operations |
| KconfigEngine.Kconfig.BuildDep | tools/kconfiglib/kconfiglib.py:3486-3559 | the dependents of an item are exactly the items whose properties mention it, and for the symbols of a choice the choice |
| KconfigEngine.Kconfig.ExprValue | tools/kconfiglib/kconfiglib.py:6013-6070 | fills caches, changes none, and returns what short-circuiting evaluation finds in them afterwards |
| KconfigEngine.Kconfig.CompareAtoms | tools/kconfiglib/kconfiglib.py:6035-6070 | the same for a comparison, numbers as numbers unless both sides are strings |
| KconfigEngine.Kconfig.Visibility | tools/kconfiglib/kconfiglib.py:6314-6341 | fills caches, changes none, and returns the visibility that is cached afterwards |
| KconfigEngine.Kconfig.ChoiceMode | tools/kconfiglib/kconfiglib.py:5214-5232 | the same for the mode of a choice, found from cached fields |
| KconfigEngine.Kconfig.SelectionOf | tools/kconfiglib/kconfiglib.py:5449-5478 | the same for a selection |
| KconfigEngine.Kconfig.TriValue | tools/kconfiglib/kconfiglib.py:4447-4525 | the same for a logical value |
| KconfigEngine.Kconfig.StrValue | tools/kconfiglib/kconfiglib.py:4307-4444 | the same for a string value |
| KconfigEngine.Kconfig.AssignableOf | tools/kconfiglib/kconfiglib.py:4838-4882 | the same for an assignable set |
| KconfigEngine.Kconfig.ReadExpr | tools/kconfiglib/kconfiglib.py:6013-6070 | what is returned is the cache-free value of the expression, whatever was cached |
| KconfigEngine.Kconfig.ReadComparison | tools/kconfiglib/kconfiglib.py:6035-6070 | the same for a comparison |
| KconfigEngine.Kconfig.ReadVisibility | tools/kconfiglib/kconfiglib.py:6314-6341 | the same for a visibility |
| KconfigEngine.Kconfig.ReadMode | tools/kconfiglib/kconfiglib.py:5214-5232 | the same for the mode of a choice |
| KconfigEngine.Kconfig.ReadSelection | tools/kconfiglib/kconfiglib.py:5449-5478 | the same for a selection |
| KconfigEngine.Kconfig.ReadTri | tools/kconfiglib/kconfiglib.py:4447-4525 | the same for a logical value |
| KconfigEngine.Kconfig.ReadText | tools/kconfiglib/kconfiglib.py:4307-4444 | the same for a string value with its write flag |
| KconfigEngine.Kconfig.ReadAssignable | tools/kconfiglib/kconfiglib.py:4838-4882 | the same for an assignable set |
| KconfigEngine.Kconfig.InvalidateAll | tools/kconfiglib/kconfiglib.py:3561-3569 | drops every cached field of every defined item |
| KconfigEngine.Kconfig.RecInvalidate | tools/kconfiglib/kconfiglib.py:4890-4919 | on any graph, cyclic or not, ends; drops exactly a set of items that contains the item and has no cached dependent left, and, unless MODULES is reached, only items reached from it through dependents that were cached |
| KconfigEngine.Kconfig.SetValue | tools/kconfiglib/kconfiglib.py:4582-4670 | accepts exactly the valid values, stores them with selection and mark, and keeps all caches justified |
| KconfigEngine.Kconfig.UnsetValue | tools/kconfiglib/kconfiglib.py:4672-4679 | forgets the user value, with all caches justified |
| KconfigEngine.Kconfig.SetChoiceMode | tools/kconfiglib/kconfiglib.py:5269-5308 | the same for the mode of a choice |
| KconfigEngine.Kconfig.UnsetChoiceMode | tools/kconfiglib/kconfiglib.py:5310-5317 | forgets mode and selection of a choice, with all caches justified |
| KconfigEngine.Kconfig.LoadConfig | tools/kconfiglib/kconfiglib.py:1247-1377 | a merging load applies the lines in order; a replacing load also forgets what they do not set; caches stay justified |
| KconfigEngine.Kconfig.WriteConfig | tools/kconfiglib/kconfiglib.py:1598-1671 | writes the entries of all symbols that have one, in definition order |
| KconfigEngine.Kconfig.ConfigString | tools/kconfiglib/kconfiglib.py:4546-4573 | the entry of one symbol |
| KconfigEngine.Kconfig.WriteMinConfig | tools/kconfiglib/kconfiglib.py:1710-1745 | writes the entries of the symbols that can be changed and do not have their default |
| KconfigEngine.Kconfig.ComputeStrDefault | tools/kconfiglib/kconfiglib.py:4943-4976 | the default that the minimal configuration compares with |
| KconfigRuns.Run | tools/kconfiglib/kconfiglib.py:4307-4543 | after any sequence of set, unset, mode changes, loads, writes and reads every answer is the cache-free one, and every cached field equals the cache-free value |
| KconfigReassignment.Reassign | tools/kconfiglib/kconfiglib.py:4447-4525 | if two user states give each item, taken alone, the same value, all values agree |
| KconfigReassignment.OwnChange | tools/kconfiglib/kconfiglib.py:4582-4670 | assigning a symbol changes its value as if everything it reads stayed put, and its visibility, its reverse, weak reverse and direct dependencies, its type and its assignable values do stay |
| KconfigReassignment.OwnText | tools/kconfiglib/kconfiglib.py:4307-4444 | the same for the value of a string, key or number |
| KconfigMeaning.AndMeans | tools/kconfiglib/kconfiglib.py:6013-6034 | t is reached by && exactly if by both sides, by || exactly if by one, and by ! exactly if the operand is at most 2 - t |
| KconfigMeaning.LeafMeans | tools/kconfiglib/kconfiglib.py:6013-6034 | what symbols, choices and constants are in an expression |
| KconfigMeaning.RelMeans | tools/kconfiglib/kconfiglib.py:6035-6070 | relations are y or n; numbers are related as numbers for all six operators, everything else as text in dictionary order |
| KconfigMeaning.StrCmpOrders | tools/kconfiglib/kconfiglib.py:6389-6393 | comparing text tells equality and dictionary order |
| KconfigMeaning.AtomMeans | tools/kconfiglib/kconfiglib.py:6395-6407 | what atoms are as text and as numbers, by type |
| KconfigMeaning.VisMeans | tools/kconfiglib/kconfiglib.py:6314-6341 | a symbol is as visible as its most visible prompt, m counting as y unless it is tristate with modules on; which members a choice hides |
| KconfigMeaning.ChoiceVisMeans | tools/kconfiglib/kconfiglib.py:6314-6341 | the same for choices |
| KconfigMeaning.ModeMeans | tools/kconfiglib/kconfiglib.py:5214-5232 | when a choice is in n, m or y mode, by visibility, type, modules and what was asked for |
| KconfigMeaning.SelectionMeans | tools/kconfiglib/kconfiglib.py:5449-5478 | the selection is the visible one of the user, else the first default that applies and is visible, else the first visible symbol; outside y mode there is none |
| KconfigMeaning.LogicalMeans | tools/kconfiglib/kconfiglib.py:4473-4512 | a symbol outside choices is n without a reason and y for a reason for y, or for m where m is not possible or y is implied; reasons are selects, a visible assignment or else the first default that applies and implications; when it gets an entry |
| KconfigMeaning.SpelledOut | tools/kconfiglib/kconfiglib.py:4314-4325 | logical values as text; other types are n as logical values; undefined symbols stand for their names |
| KconfigMeaning.TextMeans | tools/kconfiglib/kconfiglib.py:4424-4434 | strings and keys: what was typed if visible, else the first default that applies, else empty; when they get an entry |
| KconfigMeaning.NumberInRange | tools/kconfiglib/kconfiglib.py:4333-4422 | a number with a range in force is inside it: what was typed if that counts, else the number of the range nearest to the default |
| KconfigMeaning.NumberWithoutRange | tools/kconfiglib/kconfiglib.py:4333-4422 | without a range, what was typed if visible and not empty, else the default |
| KconfigLaws.ChoiceExclusive | tools/kconfiglib/kconfiglib.py:4514-4522 | in y mode exactly one member is y if any is visible and the rest are n; in m mode those are m that are visible and were given m or y and the rest are n; in n mode all are n; members get entries exactly if visible |
| KconfigLaws.MemberTakes | tools/kconfiglib/kconfiglib.py:4517-4522 | in m mode, giving n, m or y to a visible member makes it n, m or m and leaves the mode and all other members |
| KconfigLaws.MemberSelected | tools/kconfiglib/kconfiglib.py:4654-4670 | in y mode, giving y to a visible member makes it y and all others n |
| KconfigLaws.MemberAssignable | tools/kconfiglib/kconfiglib.py:4838-4882 | for visible members: in y mode y is assignable and sticks; in m mode exactly the assignable values stick if and only if the member is neither selected nor implied to y |
| KconfigLaws.ModesExact | tools/kconfiglib/kconfiglib.py:5430-5447 | for a visible choice exactly the assignable modes stick |
| KconfigLaws.Accepts | tools/kconfiglib/kconfiglib.py:4582-4652 | which values are accepted, by type, and that a refused value changes nothing |
| KconfigLaws.SpelledValues | tools/kconfiglib/kconfiglib.py:4582-4652 | n, m and y spelled as text are the values |
| KconfigLaws.TypedIsRead | tools/kconfiglib/kconfiglib.py:4582-4670 | a visible string, key or number in range reads as what was typed |
| KconfigLaws.Unset | tools/kconfiglib/kconfiglib.py:4672-4679 | after unset_value a symbol is what it is without an assignment; a choice forgets mode and selection |
| KconfigLaws.AssignableExact | tools/kconfiglib/kconfiglib.py:4838-4882 | for a visible symbol outside choices, exactly the assignable values read back after being set, if and only if it is not visible and selected to m while implied to y |
| KconfigExamples.AssignableOff | tools/kconfiglib/kconfiglib.py:4838-4882 | a configuration with such a symbol, where assignable is wrong |
| KconfigText.QuotingRoundTrip | tools/kconfiglib/kconfiglib.py:6204-6222 | for every string and any text after it, matching a quoted string and unescaping undo escaping and quoting |
| KconfigReplaceLoad.ReplaceForgets | tools/kconfiglib/kconfiglib.py:1360-1377 | a replacing load from any state ends where a merging load into nothing ends, if and only if there is no tristate choice that had a selection and for which the file assigns m to a tristate symbol of it and y to none |
| KconfigReplaceLoad.LinesSet | tools/kconfiglib/kconfiglib.py:1296-1310 | loading a file into nothing marks a choice exactly if some line assigns y, or m where both are tristate, to a symbol of it, and gives it a selection exactly if some line assigns y |
| KconfigReplaceLoad.ReplaceForgetsYN | tools/kconfiglib/kconfiglib.py:1249-1262 | in particular for files that assign only y and n to choice symbols |
| KconfigExamples.ReplaceKeepsSelection | tools/kconfiglib/kconfiglib.py:1296-1310 | a one-line file after which the old selection is still there |
| KconfigRoundTrip.EntryLoads | tools/kconfiglib/kconfiglib.py:1268-1358 | loading the written entry of a symbol assigns the value it was written from, keys up to their first other character |
| KconfigRoundTrip.EntriesLoaded | tools/kconfiglib/kconfiglib.py:1264-1358 | loading the entries of any set of symbols into an empty state assigns exactly those symbols their values and makes the selected ones the selections of their choices |
| KconfigRoundTrip.EnoughSuffices | tools/kconfiglib/kconfiglib.py:1247-1377 | if the symbols and choices left out have their values without an assignment, loading the entries of the others brings every value back |
| KconfigRoundTrip.EnoughNeeded | tools/kconfiglib/kconfiglib.py:1247-1377 | and only then |
| KconfigRoundTrip.KeyPrefixWhole | tools/kconfiglib/kconfiglib.py:1324-1333 | a key is read back whole if and only if it consists of letters, digits and underscores |
| KconfigFiles.SplitJoin | tools/kconfiglib/kconfiglib.py:1598-1671 | joining lines without line breaks and splitting the text gives the lines |
| KconfigFiles.IgnoredLines | tools/kconfiglib/kconfiglib.py:1335-1347 | comments, blank and malformed lines do not matter to a load |
| KconfigFiles.EntriesInOrder | tools/kconfiglib/kconfiglib.py:1598-1671 | entries come in the order of the symbols |
| KconfigFiles.WrittenAs | tools/kconfiglib/kconfiglib.py:4546-4580 | the spelling of entries, and who gets one |
| KconfigFiles.ReadAs | tools/kconfiglib/kconfiglib.py:1285-1347 | the four spellings of n, m and y give the symbol that value, unless n its choice that mode, and y its choice that selection, and change nothing else |
| KconfigFiles.ConfigRoundTrip | tools/kconfiglib/kconfiglib.py:1598-1671 | loading a written configuration into any state brings every value back if and only if the visible keys are key characters only, and then writing again gives the same lines |
| KconfigFiles.TextRoundTrip | tools/kconfiglib/kconfiglib.py:1598-1671 | the same for the text of the file, which is identical when written again |
| KconfigExamples.ConfigLosesKey | tools/kconfiglib/kconfiglib.py:1324-1333 | a key with a hyphen does not come back |
| KconfigFiles.MinConfigRoundTrip | tools/kconfiglib/kconfiglib.py:1710-1745 | loading a minimal configuration into any state brings every value back if and only if no visible selected text or number differs from its default and the written keys are key characters only; and then writing again gives the same lines |
| KconfigFiles.MinTextRoundTrip | tools/kconfiglib/kconfiglib.py:1710-1745 | the same for the text of the file, which is then written again identically |
| KconfigFiles.MinimalEntries | tools/kconfiglib/kconfiglib.py:1710-1745 | every entry of a minimal configuration is needed, if and only if it is neither a tristate default of a choice nor a number clamped from a default outside its range |
| KconfigExamples.MinConfigSurplus | tools/kconfiglib/kconfiglib.py:1710-1745 | a number with a default outside its range is written although nothing was assigned |
| KconfigExamples.MinConfigLosesText | tools/kconfiglib/kconfiglib.py:1710-1745 | a configuration whose minimal form loses a typed text |
| KconfigSyncDeps.LoadOldVals | tools/kconfiglib/kconfiglib.py:1856-1902 | fails exactly on an entry of a key symbol; otherwise returns the last readable entry of each symbol and touches exactly the unknown ones |
| KconfigSyncDeps.SyncDeps | tools/kconfiglib/kconfiglib.py:1747-1854 | given the text of auto.conf, fails exactly if a line of it names a key symbol; otherwise touches exactly the symbols whose value is not the recorded one and the unknown names, and returns the new text |
| KconfigSyncDeps.WhoIsRecorded | tools/kconfiglib/kconfiglib.py:1904-1930 | auto.conf has entries for exactly the written symbols that are not logical and n |
| KconfigSyncDeps.SyncExact | tools/kconfiglib/kconfiglib.py:1809-1925 | after auto.conf was written in one user state, a sync in any state touches exactly the symbols whose entry appeared, vanished or changed, and none if nothing changed, if and only if no written entry contains a line break; in that case it raises instead if and only if a key symbol had an entry |
| KconfigSyncDeps.SyncFails | tools/kconfiglib/kconfiglib.py:1892-1896 | over the text of auto.conf, with or without line breaks: the next sync raises if and only if the entry of some symbol has a line that names a key symbol |
| KconfigSyncDeps.KeyNamesItself | tools/kconfiglib/kconfiglib.py:1892-1896 | every entry of a key symbol, whose name is one line, has such a line, whatever its value |
| KconfigExamples.SyncRaisesOnText | tools/kconfiglib/kconfiglib.py:1875-1897 | a string value whose second line looks like the entry of a key: the sync raises although no key symbol has an entry |
| KconfigExamples.SyncRaises | tools/kconfiglib/kconfiglib.py:1892-1896 | a configuration with a key symbol whose second sync raises |
| KconfigSyncDeps.BrokenIsTouched | tools/kconfiglib/kconfiglib.py:1875-1897 | a symbol whose value contains a line break is touched by every sync, whatever auto.conf holds |
| KconfigExamples.SyncTouchesTwoLines | tools/kconfiglib/kconfiglib.py:1875-1897 | a text of two lines that is touched although nothing changed |
| KconfigLoopCheck.Checker.CheckSym | tools/kconfiglib/kconfiglib.py:6587-6660 | three-colour search from a symbol: nothing found leaves it finished, after all its dependents, and no item in progress that was not before; a partial loop is a path from an item in progress, with a dependency in it if the symbol was entered from its choice and is not alone in it; a raised one is a loop with a dependency in it |
| KconfigLoopCheck.Checker.CheckChoice | tools/kconfiglib/kconfiglib.py:6662-6693 | the same from a choice; a partial loop that starts at the skipped symbol has a dependency in it |
| KconfigLoopCheck.Checker.CheckAll | tools/kconfiglib/kconfiglib.py:1117-1120 | with or without choices, whatever is raised is a loop that uses a dependency and not only choices and their symbols; what is accepted is in an order in which the dependents of a symbol come before it |
| KconfigLoopCheck.CheckDepLoops | tools/kconfiglib/kconfiglib.py:1117-1120 | with or without choices, what is raised is such a loop, and every loop of dependencies between symbols is found; without choices, raises if and only if there is a loop |
| KconfigLoopCheck.AcceptedIsWellFormed | tools/kconfiglib/kconfiglib.py:6587-6660 | an accepted configuration without choices has a rank under which value and visibility recursion are well-founded |
| KconfigExprText.PrintParse | tools/kconfiglib/kconfiglib.py:6088-6129 | parsing the printed tokens of any expression uses all of them and gives an expression with the same value under every valuation |
| KconfigExprText.Parser.ParseExprAt | tools/kconfiglib/kconfiglib.py:3396-3435 | the parser with its cursor reads what the grammar reads |
| KconfigExprText.Reparse | tools/kconfiglib/kconfiglib.py:3396-3480 | running the parser on printed tokens gives what the grammar reads there, an equivalent expression, and leaves the cursor after the last token |
| KconfigExprText.SameValue | tools/kconfiglib/kconfiglib.py:6013-6070 | equivalent expressions have the same value in every configuration and user state |
| KconfigExprText.Grouping | tools/kconfiglib/kconfiglib.py:3396-3480 | ! binds most, then &&, then ||, and parentheses override that |
| KconfigExprText.ExprRewritten | tools/kconfiglib/kconfiglib.py:3446-3461 | parsing with m rewritten reads the same tokens, to the same expression with every m outside relations replaced by m && MODULES |
| KconfigExprText.WithModulesMeans | tools/kconfiglib/kconfiglib.py:3446-3461 | what that means: m counts as m only with modules on |
| KconfigMacroMeaning.MacroMeans | tools/kconfiglib/kconfiglib.py:2762-2822 | a call is replaced by the value of the call with its arguments, split at the commas outside inner parentheses and each expanded, or fails if it is not closed or an argument or the call has no value |
| KconfigMacroMeaning.OnlyTheCall | tools/kconfiglib/kconfiglib.py:2762-2822 | a call that expands is replaced in place and ends at the parenthesis that matches its own, whatever parentheses the values of nested calls contain; the text before and after stays |
| KconfigMacroMeaning.TextKept | tools/kconfiglib/kconfiglib.py:2680-2693 | whole-text expansion keeps all text outside calls and replaces each outermost call by its value; it fails if and only if a call is not closed or has no value |
| KconfigMacroMeaning.ExpansionMeans | tools/kconfiglib/kconfiglib.py:2680-2693 | the expansion that rewrites text in place is the compositional value of the text |
| KconfigMacroMeaning.CallMeans | tools/kconfiglib/kconfiglib.py:2795-2812 | the value of a call: a number in range is that argument of the surrounding call, negative ones count from the end; a variable is the value of its text with the arguments of the call; anything else comes from outside; recursion without arguments or beyond 100 fails |
| KconfigMacroMeaning.CalledWith | tools/kconfiglib/kconfiglib.py:2762-2853 | a variable with text $(1), called with an argument, expands to that argument |
| KconfigMacros.ExpandFromFewer | tools/kconfiglib/kconfiglib.py:2680-2693 | what expands while other expansions are under way expands to the same text without them |
| KconfigMacros.Preprocessor.FnValOf | tools/kconfiglib/kconfiglib.py:2824-2853 | with counters as fields: the value of a variable or function, and on success every counter is back where it was |
| KconfigMacros.Preprocessor.ExpandWhole | tools/kconfiglib/kconfiglib.py:2680-2693 | the same for a whole text |
| KconfigMacros.Preprocessor.ExpandOne | tools/kconfiglib/kconfiglib.py:2762-2822 | the same for one macro call |
| KconfigMenuTree.TreeKept | tools/kconfiglib/kconfiglib.py:3601-3655 | finalizing the top menu keeps exactly the nodes that are no ifs, in definition order, and leaves no children below promptless nodes other than choices |
| KconfigSubmenus.SymbolTakes | tools/kconfiglib/kconfiglib.py:3601-3621 | below a symbol are exactly the nodes of the run of following siblings that depend on it or on symbols it took, in order; the first sibling left does not depend on it |
| KconfigSubmenus.OthersKeep | tools/kconfiglib/kconfiglib.py:3623-3641 | below any other node are the nodes that were below it, in order |
| KconfigSubmenus.TreeHas | tools/kconfiglib/kconfiglib.py:3601-3655 | in the finished tree, nodes that keep their children still have them |
| KconfigMenuTree.FlattenKeeps | tools/kconfiglib/kconfiglib.py:6504-6530 | flattening keeps definition order and leaves no node of the level to flatten |
| KconfigMenuTree.RemoveIfsKeeps | tools/kconfiglib/kconfiglib.py:6533-6556 | removing ifs keeps all other nodes in order |
| KconfigMenuTree.FinalizeDistinct | tools/kconfiglib/kconfiglib.py:3601-3655 | no node is duplicated |
| KconfigMenuLinks.Menus.FlattenLevel | tools/kconfiglib/kconfiglib.py:6504-6530 | rewrites next, list and parent links in place to those of the flattened level and touches nothing else |
| KconfigMenuLinks.Menus.RemoveIfNodes | tools/kconfiglib/kconfiglib.py:6533-6556 | rewrites the child list in place to the one without ifs |
| KconfigMenuLinks.Menus.AbsorbSiblings | tools/kconfiglib/kconfiglib.py:3605-3621 | makes the siblings that depend on a symbol its children, each finalized before |
| KconfigMenuLinks.Menus.FinalizeNode | tools/kconfiglib/kconfiglib.py:3576-3655 | rewrites the links of a node and its siblings to those of its finalized form and touches nothing else |
| KconfigMenuLinks.Menus.NodeIter | tools/kconfiglib/kconfiglib.py:1951-1976 | the iterative walk over the links visits the nodes in definition order |
| KconfigMenuLinks.ParentHolds | tools/kconfiglib/kconfiglib.py:1958-1969 | the parent link of a node names the node whose child list holds it |
| KconfigMenuLinks.Menus.FinalizeTree | tools/kconfiglib/kconfiglib.py:1097-1098 | after finalization the walk visits the non-if nodes once each in original order, each is held by its parent, below every node with a prompt, or choice, are exactly the nodes due there, and a sibling right after such a node has it as parent if and only if it is a symbol the sibling depends on |
| KconfigPropagation.MakeMeans | tools/kconfiglib/kconfiglib.py:2883-2909 | the simplified conjunction and disjunction mean minimum and maximum |
| KconfigPropagation.Finalizer.PropagateDeps | tools/kconfiglib/kconfiglib.py:3657-3707 | each child gets its dependency, prompt and other conditions from its parent; nodes below are untouched |
| KconfigPropagation.Finalizer.AddPropsToSym | tools/kconfiglib/kconfiglib.py:3709-3741 | a definition is added to its symbol and to the symbols it selects or implies |
| KconfigPropagation.Finalizer.FinalizeNode | tools/kconfiglib/kconfiglib.py:3601-3655 | everything below a node gets its conditions, and all definitions are added in document order |
| KconfigPropagationLaws.DepMeans | tools/kconfiglib/kconfiglib.py:3671-3671 | a node's dependency allows a value exactly if its own, those of all nodes above it up to the nearest choice, and the mode of that choice do |
| KconfigPropagationLaws.PromptMeans | tools/kconfiglib/kconfiglib.py:3673-3705 | a prompt of a symbol or choice allows a value exactly if its condition, its dependency and the visible if of every menu above do; other prompts ignore visible if |
| KconfigPropagationLaws.ConditionsMean | tools/kconfiglib/kconfiglib.py:3681-3699 | defaults, ranges, selects and implies keep their values; their conditions become the minimum with the dependency |
| KconfigPropagationLaws.GatheredMeans | tools/kconfiglib/kconfiglib.py:3709-3741 | direct dependency is the maximum over definitions, reverse and weak reverse dependency the maximum over all selects and implies of the minimum of selector and condition, properties are listed in document order |
| KconfigPropagationLaws.GatheredChoice | tools/kconfiglib/kconfiglib.py:3648-3653 | the same for direct dependency and defaults of choices |
| KconfigFinalized.PromptWithinDeps | tools/kconfiglib/kconfiglib.py:3673-3679 | no prompt is more visible than the direct dependency of its symbol allows |
| KconfigFinalized.VisibleMeansDepends | tools/kconfiglib/kconfiglib.py:3671-3679 | so a visible symbol has direct dependencies that are not n, in every user state |
| KconfigFinalized.InsideChoice | tools/kconfiglib/kconfiglib.py:3660-3671 | dependencies and prompts below a choice contain the choice as a conjunct |
| KconfigFinalized.ChoicePromptsInside | tools/kconfiglib/kconfiglib.py:3836-3896 | if all definitions with prompts of a choice's symbols are inside it, all their prompts are bounded by its mode |
| HttpDownload.Download.Step | src/libhttp/src/http_download.c:247-328 | every turn does what its state says: next state, size, events; whatever network and handler do, what the handler took is a prefix of the file, the carried-over bytes follow it and fit the buffer, every piece came with its offset, and completion means the whole size was received |
| HttpDownload.Download.GetData | src/libhttp/src/http_download.c:283-312 | without data the connection is given up; with data the handler gets it, and the download is complete if and only if the whole size was received |
| HttpDownload.Download.LivelyStep | src/libhttp/src/http_download.c:247-328 | a turn in which nothing goes wrong outside brings a download that can end strictly nearer to its end |
| HttpDownload.Download.HandOver | src/libhttp/src/http_download.c:292-304 | the handler gets the carried-over bytes followed by the new ones at their offset; what it leaves is moved to the start of the buffer |
| HttpDownload.HandedOver | src/libhttp/src/http_download.c:292-304 | taking all but the last bytes of a piece keeps handler, carried-over bytes and file in step |
| HttpDownload.Download.Run | src/libhttp/src/http_download.c:243-337 | over every run: it starts with start, the last event is finish exactly on completion and fault otherwise, and after completion at the true size the bytes taken and carried over are the whole file; if the last turns, four more than the file has bytes, go well and the handler never fills the buffer, it completes |
| TailQueue.HoldsInserted | src/common/utilities/queue_template.h:191-225 | linking an element in at any position represents the sequence with it inserted |
| TailQueue.HoldsRemoved | src/common/utilities/queue_template.h:227-234 | unlinking represents the sequence without it |
| TailQueue.HoldsConcat | src/common/utilities/queue_template.h:244-252 | linking one queue behind another represents the concatenation and an empty queue |
| TailQueue.Queues.Initialize | src/common/utilities/queue_template.h:185-189 | an initialized head holds the empty sequence |
| TailQueue.Queues.PutFirst | src/common/utilities/queue_template.h:191-199 | inserts at the head; all queues stay represented |
| TailQueue.Queues.PutLast | src/common/utilities/queue_template.h:201-207 | inserts at the tail |
| TailQueue.Queues.PutAfter | src/common/utilities/queue_template.h:209-217 | inserts after an element |
| TailQueue.Queues.PutBefore | src/common/utilities/queue_template.h:219-225 | inserts before an element, without knowing the head |
| TailQueue.Queues.TakeOut | src/common/utilities/queue_template.h:227-234 | removes an element |
| TailQueue.Queues.Append | src/common/utilities/queue_template.h:244-252 | appends the second queue and empties it |
| TailQueue.Queues.Last | src/common/utilities/queue_template.h:261-262 | the last element, through the element looked at as a head |
| TailQueue.Queues.Previous | src/common/utilities/queue_template.h:263-264 | the element before, the same way |
| TailQueue.Queues.Traverse | src/common/utilities/queue_template.h:236-237 | visits the sequence |
| TailQueue.Queues.TraverseBack | src/common/utilities/queue_template.h:239-242 | visits the sequence in reverse |
| TailQueue.Queues.Run | src/common/utilities/queue_template.h:185-264 | any sequence of operations on any number of heads does to the links what it does to the sequences |
| Crc16.GetCrc16 | src/common/utilities/crc_16.c:24-40 | computes the checksum bit by bit |
| Crc16.ByteIsBits | src/common/utilities/crc_16.c:34-37 | feeding a byte bit by bit is adding it at once and then shifting eight times |
| Crc16.ChangedByteFound | src/common/utilities/crc_16.c:24-40 | messages of any length that differ in exactly one byte have different checksums |
| Crc16.BurstFound | src/common/utilities/crc_16.c:24-40 | different messages of equal length whose differences lie within 16 consecutive bits, at any bit offset, have different checksums |
| Crc16.ChecksumIsRemainder | src/common/utilities/crc_16.c:24-40 | the checksum is the remainder of polynomial long division of the message, with its first bits inverted and zeros appended, by the polynomial of CRC-16 |
| Crc16.Residue | src/common/utilities/crc_16.c:24-40 | a message followed by its checksum, low byte first, has the checksum 0 |
| Crc32.EntrySerial | src/common/utilities/crc32i.c:12-77 | every table entry is what eight bit steps with 0xEDB88320 make of its index |
| Crc32.FastIsSerial | src/common/utilities/crc32i.c:105-112 | the table-driven step is the bit-serial one of section 8 of RFC 1952 |
| Crc32.Update | src/common/utilities/crc32i.c:105-112 | the loop computes the bit-serial checksum state of the data |
| Crc32.Total | src/common/utilities/crc32i.c:135-142 | the checksum of a whole message |
| Crc32.TotalOfPieces | src/common/utilities/crc32i.c:88-126 | however the data is split into updates, the checksum is that of the whole |
| Crc32.ChangedByteFound | src/common/utilities/crc32i.c:105-142 | messages of any length that differ in exactly one byte have different checksums |
| Crc32.BurstFound | src/common/utilities/crc32i.c:105-142 | different messages of equal length whose differences lie within 32 consecutive bits, at any bit offset, have different checksums |
| Crc32.ChecksumIsRemainder | src/common/utilities/crc32i.c:105-142 | the checksum is the complement of the remainder of polynomial long division of the message, with its first bits inverted and zeros appended, by the polynomial of CRC-32 |

## Left out

- File access, `source` and glob handling, environment variables, encodings, help texts and warning texts: files are line sequences, touched files a set.
- Comment and header lines of written files: a written configuration is its symbol entries, and a load ignores other lines (`KconfigFiles.IgnoredLines`).
- `config_prefix` from the environment: the prefix is CONFIG_.
- `_warn_select_unsatisfied_deps` and other warnings: they read further values without changing any.
- `allnoconfig_y`, `defconfig_list` and environment symbols, except that they are never written.
- The character-level tokenizer: expressions are parsed from tokens, and macros are expanded in plain text without quoting.
- Names and string literals with macros in them (`_expand_name`, `_expand_str`), built-in and user-defined functions: one arbitrary function.
- `unique_syms` in `node_iter`, and the types that `_finalize_choice` assigns.
- `_expr_depends_on`: an arbitrary predicate on pairs of nodes, since its grouping also accepts `!= y`.
- Propagation is modelled on the parsed tree, tree rewriting with an arbitrary automatic-dependency predicate: conditions of a level are propagated before any node of it is moved, so neither sees the other's changes.
- KconfigLoopCheck.CheckDepLoops: with choices, loops that lead through a choice need not be found, because a choice symbol that is already done hides a path back into its own choice.
- KconfigLoopCheck.AcceptedIsWellFormed: configurations without choices, for the same reason.
- KconfigRoundTrip.EntriesLoaded: modules are off and choices not optional, because a default may exceed m visibility.
- KconfigRoundTrip.EnoughSuffices: the same.
- KconfigRoundTrip.EnoughNeeded: the same.
- KconfigFiles.ConfigRoundTrip: the same.
- KconfigFiles.TextRoundTrip: the same, and entries without line breaks, because an entry with one is no longer one line of the file.
- KconfigFiles.MinConfigRoundTrip: modules are off and choices not optional, as for full configurations.
- KconfigFiles.MinTextRoundTrip: the same, and entries without line breaks, as for the full text.
- KconfigLaws.AssignableExact: symbols outside choices only; `KconfigLaws.MemberAssignable` is about the others.
- HttpDownload.Download.Run: assumes a server that honours byte ranges as in section 2.1 of RFC 7233, a correct size if it is asked for, and a handler that leaves no more than it got; `size_t` overflow and the clock are not modelled, turns simply end.
- URL parsing, header parsing, allocation failures and TLS set-up of the download.
- The other queue macros (SLIST, LIST, SIMPLEQ, CIRCLEQ).
- The menu interface and the scripts that translate `.config` to headers.
- Wrappers around HTTP, MQTT, TLS and the operating system, and the conversions in `mix_method.c`.
