# simple_cli in Dafny

A model of `scli::CLI`, the header-only command-line library in
`simple_cli.h`. A host program declares parameters (positionals, short and
long flags, short and long options). `parse` then walks the argument vector
once and records, for each declared parameter, whether it was `found` and
what `value` it carries. The accessors `is`, `operator[]` and `asInt` read
those records back. Every failure, in the parse or in a query, sets one
sticky error flag, which `error()` reports.

Files and modules:

- `cstdlib.dfy` (`CStdlib`): `atoi` as section 7.22.1.2 of ISO/IEC 9899:2011
  describes it. It skips leading white space, reads an optional sign and then
  the longest run of digits, and gives 0 when there are no digits. It also
  has a decimal printer and the round trip through it.
- `scli_strings.dfy` (`ScliStrings`): `StripPattern` and `SplitAtEqual`, with
  the lemmas that characterise them.
- `scli_parse.dfy` (`ScliParse`): the parameter record, `MakeParam`, the
  registry invariant and a functional specification of the parse loop
  (`Token`, `MatchToken`, `ParseFrom`, `Parse`), with lemmas for each case of
  the loop body and for the whole pass.
- `scli.dfy` (`Scli`): the class `Cli`, with the declaration methods, `Parse`
  (a loop proved against `ScliParse.Parse`), the accessors and `Error`.
- `scli_examples.dfy` (`ScliExamples`): whole-registry scenarios.

Representation. In C++ the positional vector, the name map and the pattern
map hold pointers to shared `param_t` records. Here the records live in an
arena `params: seq<Param>`, and `positionals: seq<nat>`,
`byName: map<string, nat>` and `byPattern: map<string, nat>` hold positions
in it. A write to `params[j]` through the positional list is therefore seen
through the name map too. `Cli.Valid()` (the predicate
`ScliParse.WellFormed`) requires the following:

- the indices point into the arena;
- positionals reach only positional records, each at most once;
- the pattern map reaches only non-positional records;
- every key names its record's `name` or `pattern`;
- every pattern is dash-stripped.

The argument vector `argc`/`argv` is a `seq<string>` whose element 0 is the
invocation token.

`param_type_e` (simple_cli.h:30-36) is the datatype `ScliParse.Kind` and
`param_t` (simple_cli.h:38-48) the datatype `ScliParse.Param`. The registry
invariant `ScliParse.WellFormed` (`Cli.Valid`) is no statement of the source
itself; the constructors establish it and every state-changing method of
`Cli` keeps it, which is how the rows for those methods below state it.

Three behaviours of `parse` that a reader might not expect, all modelled as
the code has them:

- An inline value counts only when it is non-empty (`value.size() > 0`).
  So `--opt=` takes the next token as its value, and `-d=` on a flag is not
  an error.
- A token is given to a positional purely by its index. A token such as `-x`
  in a positional slot is a positional value, not a flag.
- `found` can be set several times in one pass, and it is never reset. An
  option at the end of the list is marked found before the error is raised,
  and it keeps its old value.

## Model

| member | source | states |
|---|---|---|
| CStdlib.AtoiDigitPrefix | simple_cli.h:205 | a non-empty digit string followed by a non-digit reads as the value of the digits; the tail is ignored |
| CStdlib.Atoi | simple_cli.h:205 | `atoi`: a non-zero result needs a digit somewhere in the text, and a negative one a `-` right after the leading white space |
| CStdlib.PrefixValue | simple_cli.h:205 | the magnitude read after the sign is non-zero only when the text starts with a digit |
| CStdlib.SkipSpace | simple_cli.h:205 | the white space `atoi` skips: the result is a suffix of the text, everything before it is white space, and it does not start with white space |
| CStdlib.DigitRun | simple_cli.h:205 | the length of the longest digit prefix: everything before it is a digit, and the character at it, if any, is not |
| CStdlib.AtoiOfMinus | simple_cli.h:205 | a leading `-` negates the digit prefix after it |
| CStdlib.AtoiOfDigitStart | simple_cli.h:205 | text starting with a digit reads as its digit prefix, with no white space or sign consumed |
| CStdlib.PrefixValueOfNatToString | simple_cli.h:205 | the digit prefix of the decimal text of n is worth n |
| CStdlib.AtoiOfPlus | simple_cli.h:205 | a leading `+` is skipped: the digit prefix after it is read, unsigned |
| CStdlib.AtoiSigned | simple_cli.h:205 | a `+` or `-` directly followed by digits and then a non-digit reads as the digits' value with that sign |
| CStdlib.AtoiNoDigits | simple_cli.h:205 | text with no digit after its leading white space and optional sign (`"abc"`, `"-abc"`, `" +"`) reads as 0 |
| CStdlib.AtoiSkipsSpace | simple_cli.h:205 | leading white space does not change the result |
| CStdlib.AtoiIntToString | simple_cli.h:205 | round trip: atoi reads back the decimal text of every integer, negative ones included |
| CStdlib.DigitsValueOfNatToString | simple_cli.h:205 | the digits of the decimal text of n are worth n |
| CStdlib.DigitRunOfDigits | simple_cli.h:205 | the digit run of digits followed by a non-digit stops exactly at the end of the digits |
| ScliStrings.StripPattern | simple_cli.h:64-72 | the stripped pattern is no longer than the declared one and does not start with a dash |
| ScliStrings.StripPatternSpec | simple_cli.h:64-72 | the result has no leading dash, and the input is a run of dashes followed by the result, so the result is a suffix of the input |
| ScliStrings.StripPatternNoDash | simple_cli.h:64-72 | a string with no leading dash is left unchanged |
| ScliStrings.StripPatternIdempotent | simple_cli.h:64-72 | stripping twice equals stripping once |
| ScliStrings.StripPatternDashes | simple_cli.h:64-72 | any number of dashes in front of a dash-free pattern are all removed |
| ScliStrings.FindFirst | simple_cli.h:76-77 | the index of the first `=`: no earlier `=`, and absent exactly when the token has none |
| ScliStrings.SplitAtEqual | simple_cli.h:74-82 | without a `=` the pattern keeps its entry value and the value is ""; with one, the pattern holds no `=` and pattern and value together are one character shorter than the token |
| ScliStrings.SplitAtEqualSpec | simple_cli.h:74-82 | with a `=`: pattern + "=" + value == token and the pattern has no `=`; without one: the pattern is untouched and the value is "" |
| ScliStrings.SplitAtEqualJoin | simple_cli.h:74-82 | a token `p=v` with `p` free of `=` splits back into exactly `p` and `v` |
| ScliParse.MakeParam | simple_cli.h:95-106 | the new record has the given kind, name and description, is not found, has value "", and its pattern is the declared one without its leading dashes |
| ScliParse.TokenPattern | simple_cli.h:117-120 | the key a token is looked up under has no leading dash and no `=` |
| ScliParse.InlineValue | simple_cli.h:117-120 | a token has a non-empty inline value only when it holds a `=`, and the value is shorter than the token |
| ScliParse.Token | simple_cli.h:111-143 | one iteration advances the index by one or two, never past the end, and keeps the arena size |
| ScliParse.MatchToken | simple_cli.h:116-142 | the non-positional branch advances by one or two within bounds and keeps the arena size |
| ScliParse.ParseFrom | simple_cli.h:111-143 | the parse loop from index i keeps the arena size |
| ScliParse.TokenShape | simple_cli.h:112-142 | one iteration changes only `found` and `value` of the records |
| ScliParse.MatchTokenShape | simple_cli.h:116-142 | the matched branch changes only `found` and `value` of the records |
| ScliParse.Parse | simple_cli.h:108-144 | a whole parse keeps the number of records and their kind, name, pattern and description |
| ScliParse.ParseFromShape | simple_cli.h:108-144 | a parse changes only `found` and `value`; kinds, names, patterns and descriptions stay |
| ScliParse.ParseMonotone | simple_cli.h:108-144 | the error flag once set stays set, and a record once found stays found; earlier matches are never rolled back and a reparse does not reset them |
| ScliParse.ParseFromUntouched | simple_cli.h:111-142 | a record reached neither by a positional still ahead nor by the pattern map is not changed |
| ScliParse.TokenPositional | simple_cli.h:112-115 | a token at a positional slot becomes that positional's value and marks it found, whatever it looks like |
| ScliParse.ParseFromPositionals | simple_cli.h:111-115 | from index i on, each positional still ahead is found with its token as value |
| ScliParse.ParseAssignsPositionals | simple_cli.h:111-115 | after parse, positional k is found with value args[k+1] for every k < min(#positionals, argc-1), whatever the token looks like, and later tokens never overwrite it |
| ScliParse.TokenUnknown | simple_cli.h:122-141 | a token whose stripped pattern is not declared sets the error flag and changes no record |
| ScliParse.TokenSpelling | simple_cli.h:117-120 | a token `-…-p=v` is looked up under `p` with inline value `v`; a token `-…-p` under `p` with inline value "" |
| ScliParse.TokenOptionInline | simple_cli.h:126-127 | an option with a non-empty inline value stores it, is found, and does not consume the next token |
| ScliParse.TokenOptionNext | simple_cli.h:128-131 | an option with no inline value, or an empty one, takes the next token as value and skips it |
| ScliParse.TokenOptionMissingValue | simple_cli.h:124-134 | an option that is the last token, with no inline value, is found, keeps its old value and sets the error flag |
| ScliParse.TokenFlag | simple_cli.h:124-138 | a flag is found and consumes one token; a non-empty inline value sets the error flag, an empty one (`-d=`) leaves it as it was |
| ScliParse.InlineValueSameAsNextToken | simple_cli.h:126-131 | for a non-empty v and no positionals declared, `prog -…-p v` and `prog -…-p=v` leave an option in the same state: found with value v, error unchanged (for an empty v they differ: `-…-p=` finds no value) |
| Scli.Cli.constructor | simple_cli.h:86-89 | an empty registry, not parsed, with no error |
| Scli.Cli.WithProgram | simple_cli.h:90-93 | the same, with the program metadata stored |
| Scli.Cli.AddPositional | simple_cli.h:216-221 | appends a fresh record to the positionals and overwrites the name entry; the pattern map, the other entries and the error flag are unchanged |
| Scli.Cli.AddMatched | simple_cli.h:223-249 | a fresh record overwrites the name entry and the entry under the stripped pattern; positionals, other entries and the error flag are unchanged |
| Scli.Cli.AddFlag | simple_cli.h:223-228 | as AddMatched for a FLAG record |
| Scli.Cli.AddLongFlag | simple_cli.h:230-235 | as AddMatched for a LONG_FLAG record |
| Scli.Cli.AddOption | simple_cli.h:237-242 | as AddMatched for an OPTION record |
| Scli.Cli.AddLongOption | simple_cli.h:244-249 | as AddMatched for a LONG_OPTION record |
| Scli.Cli.Parse | simple_cli.h:108-144 | sets was_parsed; records and error flag become ScliParse.Parse of the old ones; the indices are unchanged; the error flag is not cleared; the positionals get their tokens |
| Scli.Cli.ParseToken | simple_cli.h:112-142 | one loop iteration, equal to ScliParse.Token |
| Scli.Cli.MatchToken | simple_cli.h:116-142 | the split / strip / lookup branch, equal to ScliParse.MatchToken, including the skip of the next token |
| Scli.Cli.Is | simple_cli.h:163-170 | `found` of the named record; an undeclared name gives false and sets the error flag; nothing else changes |
| Scli.Cli.Get | simple_cli.h:172-190 | the value of a found positional or option; "" and the error flag for an undeclared name, a flag kind or a parameter not found; nothing else changes |
| Scli.Cli.AsInt | simple_cli.h:192-210 | atoi of that value; -1 and the error flag in the same failure cases; nothing else changes |
| Scli.Cli.Error | simple_cli.h:212-214 | reports the sticky error flag without changing it |
| ScliExamples.AtoiOfDigitsThenLetters | simple_cli.h:205 | atoi("42abc") == 42 |
| ScliExamples.AtoiOfLetters | simple_cli.h:205 | atoi("abc") == 0 |
| ScliExamples.AtoiOfPlusSign | simple_cli.h:205 | atoi("+42abc") == 42 |
| ScliExamples.FortyTwo | simple_cli.h:205 | the digits "42" are worth 42 |
| ScliExamples.AtoiOfSignedWithBlank | simple_cli.h:205 | atoi(" -17") == -17 |
| ScliExamples.MinusSeventeen | simple_cli.h:205 | atoi("-17") == -17 |
| ScliExamples.DeclareExample | simple_cli.h:216-249 | declaring positional `file`, long option `verbosity`/`verbose` and flag `debug`/`d` builds the expected indices |
| ScliExamples.ExampleParse | simple_cli.h:108-144 | parsing `prog input.txt --verbose=3 -d` fills all three records without error |
| ScliExamples.ParseExample | simple_cli.h:108-144 | the same parse through the class |
| ScliExamples.EndToEnd | simple_cli.h:163-214 | afterwards is("file"), ["file"] == "input.txt", ["verbosity"] == "3", asInt("verbosity") == 3, is("debug") and no error |
| ScliExamples.FlagParse | simple_cli.h:108-144 | parsing `prog -d` against one flag matched by `d` marks it found without error |
| ScliExamples.ReparseKeepsFound | simple_cli.h:108-144 | a second parse that omits `-d` leaves `debug` found |
| ScliExamples.UnknownTokenParse | simple_cli.h:122-141 | `prog -d --nope` marks `debug` found and sets the error flag |
| ScliExamples.UnknownTokenIsSticky | simple_cli.h:122-141 | the earlier match survives the unknown token, and the error survives a later clean parse |

## Left out

- `genHelp` is not modelled. It only formats text, and it has no `return` statement.
- The `CLI&` that each `addX` returns for chaining is not modelled. The declaration methods return nothing.
- The default `description = ""` argument is not modelled. Callers pass the description explicitly.
- `new param_t` and the empty destructor are not modelled. Records live in an arena that is never freed, so leaks and ownership are outside the model.
- The conversion of `string::find`'s `npos` to `int` and back is not modelled. The lookup is "index of the first `=`, or none".
- Overflow in `atoi` is not modelled. It is undefined behaviour in C, and integers here are unbounded.
- `isspace` is modelled for the "C" locale only.
- The iostream and typeinfo includes have no logic and are not modelled.
