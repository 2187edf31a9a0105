# Maya `cmds` stub generator: a verified model of its core

`generate-maya-cmds-stubs` reads the offline reference pages of Maya's
`maya.cmds` module and writes one Python stub module per command category, so
that editors can complete and type-check calls into `maya.cmds`. This project
models, in Dafny, the part of it that turns parsed commands into stub text:

- `type_tables.py`, its three functions:
  - the table from documentation type tokens (`[float, float, float]`,
    `timerange`, `string[]`, ...) to Python `typing` forms (`TypeTables.ArgsToTypehints`);
  - the decoder of the "is undoable, queryable, and editable." sentence
    (`Capabilities.UndoQueryEditToBools`);
  - the cleanup of a type's printed form for docstrings (`TypeTables.TypingAndNativesToStr`).
- `main.py`:
  - the `Properties` flag set of an argument, with its validation and `__repr__` (module `Flags`);
  - `MayaCommand.as_stub`, which writes a command's `def` signature and docstring (module `Render`);
  - `ExternalCommand.as_stub` (`Render.ExternalStub`);
  - the data flow of `write_command_stubs` (module `Assembly`): the category
    list, the text of `__init__.py`, and the text each category module
    receives. The files are modelled as a map from category to text.

Pure code is modelled as functions and lemmas. The loops of `as_stub`,
`Properties.__init__` and `write_command_stubs` are methods with loop
invariants. Each method is proved equal to a specification function, and
the properties are proved about those functions: for `as_stub`, about the
signature (`Render.Signature`), the docstring lines (`Render.ArgLine`,
`Render.ArgLines`) and the whole stub (`Render.Stub`).

`PyStrings` models the Python string operations the core uses:

- `lower`, `split`, `join`;
- `replace(x, "")`;
- `strip`, `splitlines` (with and without `keepends`);
- `startswith`, `endswith`.

`Wrappers` holds `Option` and `Result`.

Python's `str()` of a type object and the type table are passed to the
renderer as a `Typing` value:

- `Render.StrTyping` is what `main.py` does: the f-string prints `str()` of the looked-up type;
- `Render.CleanTyping` is the corrected form (see Findings).

The guard `arg_typehint != "bool"` at `main.py:205` is there to leave a
bool argument unwidened. It compares a type object with a string, so it
never fails, and a bool argument flagged create or query is widened like
any other. The model follows the code; `Options.boolExempt` is false for
the code as written and true for the guard as intended.

## Model

| member | source | states |
|---|---|---|
| TypeTables.ScalarAliases | type_tables.py:26-37 | the scalar tokens (`boolean`, `uint`, `int64`, `linear`, `angle`, `name`, `script`, ...) map to the four Python scalars |
| TypeTables.BracketTokens | type_tables.py:34-63 | the bracket tokens `[int, int, int]`, `[linear, linear, linear]` and `[string, uint, string, float]` map to tuples of the same arity and element types |
| TypeTables.RangeUnionTokens | type_tables.py:38-59 | `time` is a float or a float pair; `timerange` and `floatrange` are float pairs |
| TypeTables.ListTokens | type_tables.py:58 | `string[]` is a list of str |
| TypeTables.IntListToken | type_tables.py:125 | `int[]` is a list of int |
| TypeTables.NestedTupleToken | type_tables.py:70 | a range inside a bracket token becomes a nested tuple |
| TypeTables.NoSpacingNormalisation | type_tables.py:160 | the lookup is exact: `[int,int,int]`, the key `[int, int, int]` without its spaces, has no entry |
| TypeTables.NoCaseFolding | type_tables.py:160 | the lookup is case-sensitive: `Boolean`, the key `boolean` capitalised, has no entry |
| TypeTables.NoPythonNames | type_tables.py:160 | Python's own name `bool` is not a key |
| TypeTables.TypingAndNativesToStr | type_tables.py:214-220 | a rendering starting with `typing.` comes back shorter by at least the prefix; any other type comes back as its `__name__` |
| TypeTables.RemoveTypingText | type_tables.py:217-218 | removing every `typing.` from a form's printed text, nested forms included, leaves its bare annotation |
| TypeTables.DocstringForm | type_tables.py:214-220 | for every type the table yields, the function returns its bare annotation (`Tuple[float, float]`, `float`) |
| Capabilities.PhraseToBools | type_tables.py:201-211 | the table never yields (not undoable, not queryable, editable) |
| Capabilities.SentenceTailAfterName | type_tables.py:199 | after a one-word command name, the key looked up is the rest of the sentence, lowered |
| Capabilities.SingleWordDecodesToNothing | type_tables.py:199-211 | a sentence without a space decodes to nothing |
| Capabilities.CaseInsensitive | type_tables.py:199 | decoding a sentence and decoding its lowered form agree |
| Capabilities.TableHoldsPhrases | type_tables.py:201-209 | each of the seven phrases is a key and maps to its own triple |
| Capabilities.TableHoldsUndoableQueryable | type_tables.py:204-206 | the two undoable-and-queryable phrases map to their triples |
| Capabilities.TableHoldsUndoableOnly | type_tables.py:203-208 | the two undoable, not queryable phrases map to their triples |
| Capabilities.TableHoldsQueryableOnly | type_tables.py:205-207 | the two queryable, not undoable phrases map to their triples |
| Capabilities.TableHoldsNeither | type_tables.py:202 | the all-negative phrase maps to (false, false, false) |
| Capabilities.TableOnlyPhrases | type_tables.py:201-209 | every key of the table is the phrase of the triple it maps to |
| Capabilities.DistinctPhrases | type_tables.py:201-209 | different keys map to different triples |
| Capabilities.PhraseInjective | type_tables.py:202-208 | different triples have different phrases |
| Capabilities.LowerPhrase | type_tables.py:199-209 | every phrase is already lower case |
| Capabilities.DecodeExactly | type_tables.py:192-211 | after a one-word name, a sentence decodes to a triple exactly when the lowered rest is that triple's phrase and the triple is not (false, false, true) |
| Capabilities.DecodeAfterName | type_tables.py:192-211 | after any one-word name, each phrase decodes to its triple, and the (false, false, true) phrase decodes to nothing |
| Capabilities.DecodeUpperCase | type_tables.py:199-211 | an upper-case sentence decodes like its lower-case form |
| Capabilities.DecodeAllCapabilities | type_tables.py:199-204 | "x is undoable, queryable, and editable." decodes to (true, true, true) |
| Flags.SetFlag | main.py:297-299 | `setattr(p, name, True)` sets the named flag and keeps the others |
| Flags.FirstUnrecognized | main.py:289-295 | none when every title is a flag name; otherwise the leftmost title that is not |
| Flags.PropertiesOf | main.py:283-299 | construction fails exactly when some title is not a flag name, naming such a title; otherwise each flag is set exactly when its name is among the titles |
| Flags.NewProperties | main.py:283-299 | the constructor's validation loop and `setattr` loop compute `PropertiesOf` |
| Flags.Position | main.py:301-305 | each flag name has its place in the sorted attribute list |
| Flags.SetNames | main.py:301-308 | the names listed are exactly the set flags, each once, in `_arguments` order |
| Flags.ReprRoundTrip | main.py:283-308 | constructing from the names `__repr__` lists gives the same flag set back |
| Flags.OnlyMembershipMatters | main.py:289-299 | order and repetition of titles do not matter; only which titles occur |
| Flags.ReprCreateQuery | main.py:307-308 | create and query print as "create, query" |
| Flags.ReprNoFlags | main.py:307-308 | no flags print as the empty string |
| Flags.ReprOneLine | main.py:307-308 | the printed flag set holds no line break |
| Flags.ErrorMessage | main.py:290-295 | the error text opens with the unrecognised-property line and ends with the offending title |
| Render.FirstUnresolved | main.py:198-201 | none exactly when every argument's token resolves; otherwise the token of the leftmost argument that does not |
| Render.TypeText | main.py:199-206 | a widened argument's annotation is exactly `Optional[Union[` + the printed type + `, bool]]`; any other argument's is the printed type |
| Render.BoundNames | main.py:208-216 | an argument is bound once when both styles are on and its names agree; otherwise under each enabled, non-empty name, without repeats, the long name before the short |
| Render.ArgBindings | main.py:198-216 | a resolved argument has one binding per bound name, in order, each annotated with the argument's type text; an unresolved one has none |
| Render.OneLine | main.py:250-251 | the joined description contains no line break, and a description without one is kept as it is |
| Render.OneLineJoinsLines | main.py:250-251 | a description of several lines is its first line, a space, and the rest joined the same way |
| Render.ArgName | main.py:241-249 | the long name first when long names are written, the short name last when short ones are, a spaced vertical bar between them only when both are and there is a short name; nothing when neither style is on |
| Render.PropsText | main.py:252 | the printed flags are one line |
| Render.ArgNameOneLine | main.py:241-249 | the name part holds no line break when the argument's names hold none |
| Render.ArgLineOneLine | main.py:240-252 | an argument's docstring line ends with a line break and holds no other, when its names hold none |
| Render.ArgLinesSplit | main.py:239-252 | the argument block splits back into exactly one line per argument, in order |
| Render.FailureMessage | main.py:201 | the error text names the command and ends with the unresolved token |
| Render.AsStub | main.py:193-257 | `as_stub()` returns the error of the first unresolved token, or else the signature followed by the docstring |
| Render.SignatureText | main.py:194-227 | the signature loop either stops with the error of the first unresolved token or produces the whole signature line |
| Render.DocstringText | main.py:229-255 | the docstring part is the description block, then one line per argument, then the closing quotes and `...` |
| Render.ArgumentLine | main.py:240-252 | one argument's docstring line: its name as the styles ask, its flags, its description on one line |
| Render.FirstUnresolvedAt | main.py:198-201 | the first argument whose lookup fails inside the loop carries the first unresolved token |
| Render.ModesText | main.py:218-221 | `edit` then `query` are appended as bindings with a trailing comma |
| Render.CutLastComma | main.py:223-224 | the text always ends in a comma, and cutting it leaves the items joined by ", " |
| Render.StubFailsIffUnresolved | main.py:198-201 | `as_stub()` fails exactly when some token has no entry, naming a token whose arguments before it all resolve |
| Render.ParamsAppend | main.py:198-216 | the bindings of two runs of arguments are those of each run in turn |
| Render.ArgumentsBound | main.py:208-216 | every bound name of every argument is in the signature, annotated with that argument's type text |
| Render.OnlyArgumentsBound | main.py:208-216 | every binding in the signature binds a name of some argument, annotated with that argument's type text |
| Render.SignatureOpens | main.py:195-196 | the signature starts with `def <name>(*args` |
| Render.SignatureCloses | main.py:218-227 | the signature ends with `) -> Any:` and a newline, with no comma before the parenthesis |
| Render.ItemEndsClean | main.py:210-221 | no item of the parameter list ends in a comma |
| Render.NativeClassTextAsWritten | main.py:199-210 | as written, an unwidened float argument is annotated `<class 'float'>` |
| Render.CleanAnnotations | main.py:203-216 | through `typing_and_natives_to_str`, every annotation is the bare form the stub header imports, widened or not |
| Render.BoolWidenedAsWritten | main.py:203-206 | as written, a create or query argument of type bool is widened |
| Render.BoolKeptWhenExempt | main.py:203-206 | with the intended guard, a bool argument keeps its type and every other create or query argument is still widened |
| Render.ExternalStub | main.py:264-270 | the external stub is `def <name>` followed by `(*args, **kwargs) -> Any: ...` and a newline |
| Render.ExternalRoundTrip | main.py:264-270 | the command name can be read back from its external stub |
| Assembly.CategorisedPrefix | main.py:157-161 | counts the commands before the first one without a category |
| Assembly.FirstIndex | main.py:162-163 | the position where a category first occurs |
| Assembly.FirstSeen | main.py:155-163 | the categories without repeats: the same members, each once, in order of first occurrence |
| Assembly.Succeeding | main.py:175-178 | counts the commands before the first one whose stub raises |
| Assembly.CategoriesListed | main.py:155-163 | when every command has a category, the list holds each command's first category, nothing else, each once, in order of first use |
| Assembly.LinesAppend | main.py:175-178 | a category's text from two runs of commands is the first run's text, then the second's |
| Assembly.StubLandsInItsCategory | main.py:175-178 | each stub is appended to its first category's module only, after the stubs of earlier commands and before later ones |
| Assembly.WriteCommandStubs | main.py:153-178 | the loops compute `Written`: nothing when a command lacks a category; otherwise the category list, `__init__.py`, and each module's header followed by its stubs up to the first that raises |
| Assembly.BaseCategories | main.py:155-163 | the first loop gives the categories without repeats, or the error of the first uncategorised command |
| Assembly.InitText | main.py:167-169 | `__init__.py` has one star import per category, in list order |
| Assembly.Headers | main.py:171-173 | every category module starts with the typing import header |
| Assembly.AppendStubs | main.py:175-178 | the last loop appends the stubs of the commands before the first failing one, and reports that failure |

## Left out

- `parse_command`, `do_it` and the `__main__` block (`main.py:33-150`, `311-363`) are not part of this model. They do HTML parsing, file-system I/O, environment variables and `asyncio`. A parsed command is an input here.
- `cmd_arg_typehint_override` (`type_tables.py:168-189`) is not used by the modelled code and is not part of this model.
- File I/O in `write_command_stubs`: opening and appending to files is modelled as updates to a map from category to text. The `print` calls are left out.
- `write_command_stubs` checks `hasattr(command, "categories")`, which always holds for a `MayaCommand`. Only the `IndexError` of an empty category list is modelled.
- Render.AsStub: Python's `str()` of a type object is a parameter (`Typing.show`), not derived from CPython. `StrTyping` states it for the table's types as CPython prints them.
- PyStrings.Lower: lower-cases ASCII letters only, not Unicode.
- TypeTables.BracketTokens: shown for three bracket keys, not for all of them. The sixteen-float matrix key (`type_tables.py:138`) has no example lemma. A per-key check of the 105 literal keys costs more than the solver budget allows.
- TypeTables.NoSpacingNormalisation: shown for one token only. That no key has a comma followed by something other than a space is not proved, for the same cost reason.
- TypeTables.NoCaseFolding: shown for one token only. That every key is lower case is not proved, for the same cost reason.
- `args_to_typehints` builds a dictionary on every call; it is modelled as one match over the same keys, in the same order.
- The check at `main.py:332` that at least one argument style is on is in the caller. The modelled operations accept any options, as the source's do.
- Render.ArgBindings: returns no bindings for an argument whose token has no entry. `as_stub` raises before it gets there, and `Stub` fails first.
- Render.SignatureText, Render.DocstringText, Render.ArgumentLine: `as_stub` is one Python method. It is modelled as these three methods, in the source's order.
- Assembly.BaseCategories, Assembly.InitText, Assembly.Headers, Assembly.AppendStubs: `write_command_stubs` is one Python function. It is modelled as one method per loop.
- `ExternalCommand` is never constructed in `main.py`, so `Assembly` groups `MayaCommand`s only.

## Findings

| source | as written | input that shows it | evidently intended | confidence | as-written member | corrected member |
|---|---|---|---|---|---|---|
| main.py:205 | `arg_typehint != "bool"` compares a type object with a string, so it is always true and every create or query argument is widened | an argument of token `boolean` flagged `create` is annotated `Optional[Union[<class 'bool'>, bool]]` | a bool argument is left unwidened, which is what the guard is there for | not executed | Render.BoolWidenedAsWritten | Render.BoolKeptWhenExempt |
| main.py:203-215 | the f-string prints `str()` of the type: `<class 'float'>` for scalars and `typing.Tuple[...]` for forms, while the stub module imports only the bare names from `typing` | an argument of token `float` without create or query is written `x: <class 'float'> = ...` | the annotation is passed through `typing_and_natives_to_str` (`float`, `Tuple[float, float]`) | not executed | Render.NativeClassTextAsWritten | Render.CleanAnnotations |
