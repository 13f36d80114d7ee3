# lexical_bool in Dafny

A model of the `lexical_bool` Rust library (`src/lib.rs`). The library parses a
word into a bool. Each thread owns two write-once cells: the words that mean
`true` and the words that mean `false`. A cell is set either by
`initialize_true_values` / `initialize_false_values`, which succeed only on an
unset cell, or by the first parse that needs it. That parse installs the
defaults `["true", "t", "1", "yes"]` and `["false", "f", "0", "no"]`.
`LexicalBool::from_str` lowers the input's ASCII letters. It looks the result up
in the truthy list first and in the falsey list only if that fails. If neither
list holds it, it fails with `Error::InvalidInput`, which carries the input
exactly as it was given. The error's `Display` text always lists the eight
default words, each written as `'word''`.

Files:

- `ascii.dfy` (module `Ascii`): `to_ascii_lowercase` on `seq<char>`. It is
  related to an independent "same letter up to ASCII case" predicate.
- `lexical.dfy` (module `Lexical`): the value types `LexicalBool` and `Error`,
  and the defaults. The datatype `Slots` is the pair of cells as a value. Pure
  functions give the specification of each operation: `SetTruthy`, `SetFalsey`
  and `Parse` take the cells before the call and return the result and the
  cells after it. The lemmas about them state write-once behaviour, truthy
  priority, lazy defaults, idempotence and case-insensitivity. The class
  `Context` is one thread's pair of cells, with two `Option<seq<string>>`
  fields. Its methods update those fields in place and are proved against the
  pure functions.
- `error_display.dfy` (module `ErrorDisplay`): `Display::fmt`. Its `fold` is a
  loop that adds `", "` only when the text built so far is not empty. The loop
  is proved equal to the index-based join `JoinQuoted` and to the literal
  message text.
- `examples_usage.dfy` (module `Usage`): the crate's doc examples and unit
  tests, plus three scenarios, written as client methods on fresh `Context`
  objects. Two scenarios cover behaviour the documentation states in prose:
  case-insensitivity and per-thread lists. The third shows which cells a
  first parse fixes, as the code of `from_str` does it. Each method's
  postcondition lists the exact results that the `Context` contracts imply.

Three behaviours of the code are easy to overlook, and the model keeps all
three. A parse that installs a default counts as setting the cell, so a later
`initialize_*` call on that cell returns `false`. A parse whose input matches
the truthy list never looks at the falsey cell (src/lib.rs:141-155). An unset
falsey cell therefore stays unset, and a later `initialize_false_values` still
succeeds. The documentation says otherwise: src/lib.rs:100 and 114-118 say
that after a first parse the defaults of both lists hold for the life of the
thread. Configured words are not lowered, so a stored word with an ASCII
capital can never match.

## Model

| member | source | states |
|---|---|---|
| Ascii.ToLowerChar | src/lib.rs:140 | the lowered character is never an ASCII capital, is the same letter up to ASCII case, and equals the input when the input is not 'A'..'Z' |
| Ascii.ToLower | src/lib.rs:140 | lowering keeps the length, leaves no ASCII capital, and changes each character only to its same letter up to ASCII case |
| Ascii.ToLowerCharAgrees | src/lib.rs:140 | two characters lower to the same character iff they are the same letter up to ASCII case |
| Ascii.ToLowerAgrees | src/lib.rs:140 | two strings lower to the same string iff they have equal length and agree character by character up to ASCII case |
| Ascii.ToLowerFixes | src/lib.rs:140 | lowering leaves a string unchanged iff it has no ASCII capital |
| Ascii.ToLowerIdempotent | src/lib.rs:140 | lowering twice is the same as lowering once |
| Ascii.NeverLowersTo | src/lib.rs:140 | a string containing an ASCII capital is not the lowered form of any input |
| Lexical.LexicalBool.Deref | src/lib.rs:124-129 | dereferencing yields the wrapped bool: wrapping the result again gives back the same value |
| Lexical.LexicalBool.EqBool | src/lib.rs:131-135 | comparing with a plain bool is true iff the wrapper equals the wrapper of that bool |
| Lexical.Contains | src/lib.rs:143-144 | the `any(k == e)` scan is true iff `e` is an element of the list |
| Lexical.Resolve | src/lib.rs:142 | `get_or_init` yields the list already in the cell, or the default when the cell is unset |
| Lexical.ResolveSettles | src/lib.rs:142 | `get_or_init` is write-once: a cell filled by one resolution yields the same list on the next, whatever default is offered then |
| Lexical.SetTruthy | src/lib.rs:89-92 | returns true iff the truthy cell was unset; the cell then holds exactly the given values in order, otherwise nothing changes; the falsey cell is never changed |
| Lexical.SetFalsey | src/lib.rs:101-104 | returns true iff the falsey cell was unset; the cell then holds exactly the given values in order, otherwise nothing changes; the truthy cell is never changed |
| Lexical.Parse | src/lib.rs:139-158 | Ok(true) iff the lowered input is in the truthy list; Ok(false) iff it is not there but is in the falsey list; otherwise Err(InvalidInput) carrying the original input. The truthy cell ends up set to the list used. The falsey cell is left untouched on a truthy match and is set to the list used otherwise |
| Lexical.SetTruthyOnce | src/lib.rs:89-92 | after one initialization of the truthy cell, any further one returns false and leaves both cells unchanged |
| Lexical.SetFalseyOnce | src/lib.rs:101-104 | after one initialization of the falsey cell, any further one returns false and leaves both cells unchanged |
| Lexical.TruthyWins | src/lib.rs:141-154 | a word in both lists parses as true, and the falsey cell stays as it was, including unset |
| Lexical.ParseFixesTruthy | src/lib.rs:141-146 | a parse on an unset truthy cell installs the default truthy list, after which initializing the truthy values returns false |
| Lexical.ParseFixesFalsey | src/lib.rs:149-155 | a parse that gets past the truthy list on an unset falsey cell installs the default falsey list, after which initializing the falsey values returns false |
| Lexical.TruthyHitLeavesFalseyOpen | src/lib.rs:141-155 | a parse that matches the truthy list leaves an unset falsey cell unset, so initializing the falsey values still succeeds afterwards |
| Lexical.ParseKeepsSetCells | src/lib.rs:141-153 | a parse never changes a cell that was already set |
| Lexical.ParseIdempotent | src/lib.rs:139-158 | parsing the same input again in the state a parse left behind gives the same result and the same state |
| Lexical.ParseIgnoresCase | src/lib.rs:140-157 | inputs equal up to ASCII case get the same success value, both fail or neither fails, and leave the same cells |
| Lexical.Lowerable | src/lib.rs:140-152 | keeps exactly the configured words that contain no ASCII capital |
| Lexical.UpperTokensIgnored | src/lib.rs:140-152 | dropping every configured word that contains an ASCII capital from both lists changes no parse result, since only the input is lowered |
| Lexical.DefaultsClassify | src/lib.rs:161-173 | in an unconfigured context every default truthy word in any ASCII case parses as true, every default falsey word as false, and anything else fails with InvalidInput carrying the input |
| Lexical.Context.constructor | src/lib.rs:77-80 | a new context has both cells unset |
| Lexical.Context.InitializeTrueValues | src/lib.rs:89-92 | updates the truthy field in place exactly as SetTruthy says and returns its success flag |
| Lexical.Context.InitializeFalseValues | src/lib.rs:101-104 | updates the falsey field in place exactly as SetFalsey says and returns its success flag |
| Lexical.Context.FromStr | src/lib.rs:137-159 | returns the result Parse gives for the old cells and leaves the fields as Parse's resulting cells, filling unset cells in place with the defaults only when they are consulted |
| ErrorDisplay.QuoteShape | src/lib.rs:192 | the contract of `Quote`, which renders `format!("'{}''", val)`: a quoted word is an opening quote, exactly the word, then two closing quotes: three characters longer than the word, so never empty |
| ErrorDisplay.JoinQuoted | src/lib.rs:189-199 | the joined list is empty iff there are no words |
| ErrorDisplay.JoinQuotedHasEach | src/lib.rs:189-199 | every word occurs, quoted as `'word''`, at some position of the joined text |
| ErrorDisplay.JoinQuotedStartsWithFirst | src/lib.rs:193-199 | a non-empty join begins with the first quoted word: there is no leading separator |
| ErrorDisplay.DefaultsRendering | src/lib.rs:187-199 | the eight defaults, truthy then falsey, render as `'true'', 't'', '1'', 'yes'', 'false'', 'f'', '0'', 'no''` |
| ErrorDisplay.Fmt | src/lib.rs:182-202 | the message is "not a boolean: " + input + ". only " + the rendered defaults + " are allowed", whatever lists the context holds |
| Usage.DefaultTruthyWords | src/lib.rs:210-216 | in a fresh context "true", "t", "1", "yes" each parse as true |
| Usage.DefaultFalseyWords | src/lib.rs:218-224 | in a fresh context "false", "f", "0", "no" each parse as false |
| Usage.RecasedWords | src/lib.rs:120-157 | "TRUE", "tRuE" parse as true, "False", "NO" as false, and "maybe" and "" fail carrying themselves |
| Usage.CustomWords | src/lib.rs:28-71 | both initializations succeed, a second truthy one fails, the custom words parse, and "true" is then rejected |
| Usage.CustomTruthy | src/lib.rs:226-242 | with truthy ["this is true", "yep", "YEP"], inputs "yep" and "YEP" parse as true and the default falsey words still parse as false |
| Usage.CustomFalsey | src/lib.rs:244-260 | with falsey ["this is false", "nope", "NOPE"], "NOPE" parses as false and the default truthy words still parse as true |
| Usage.LateInitialization | src/lib.rs:141-155 | after "yes" matched the defaults, initializing the truthy values fails but the falsey values can still be set; "foo" is then rejected |
| Usage.SeparateContexts | src/lib.rs:77-80 | the initialization succeeds, and a word configured in one context is recognised there and rejected in another |

## Left out

- `thread_local!` and `OnceCell` synchronisation: one `Context` object stands for one thread's pair of cells. Separate threads are separate objects, and Rust's runtime, not this code, keeps them apart.
- The generic `IntoIterator<Item = S: ToString>` argument of `initialize_*`: the model takes a `seq<string>` that is already converted.
- The `Deref`, derived `Default`/`Debug`/`Clone`/`PartialEq` and `std::error::Error` plumbing: `LexicalBool.Deref` is kept as a plain accessor, and datatype equality stands in for the derived `PartialEq`.
- Rust strings are UTF-8 bytes, while the model uses `seq<char>`. Equality and ASCII lowering give the same answers on both.
- ErrorDisplay.Fmt: the `Formatter` and its `fmt::Result` are not modelled. The method returns the text that `write!` would emit and never fails.
