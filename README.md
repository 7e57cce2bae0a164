# toki-lang parser, modelled in Dafny

This project models the grammar built by `parser()` in
`packages/parser/src/parser.rs`. The grammar turns the source text of a small
scripting language into a list of `Expression` trees. A program is a sequence
of `import namespace/entry` and `fun name() { ... }` declarations. A function
body is a block of calls such as `console.log("hi")`: a dotted chain of
identifiers applied to string literals. Calls are separated by line breaks.

The parser is built from chumsky combinators. Here every combinator rule is a
recursive-descent function over `string` (`seq<char>`). Each rule returns
`Parsed(value, rest)` or `NoParse`, and reproduces the combinators' behaviour:

- ordered choice (`or`);
- optional repetition that stops at the first failure (`repeated`);
- separated lists with no minimum, which give back a separator that no item
  follows (`separated_by`);
- whitespace skipped before and after an item only when the item parses
  (`padded`);
- ASCII identifiers (`text::ident`), with keywords as identifiers that must
  match exactly (`text::keyword`);
- `"\r\n"` or a single line-break character (`newline()`).

`Parser` adds the `end()` check: a program is accepted only when nothing but
whitespace is left.

Modules:

- `Chars` (`chars.dfy`): character classes.
- `Ast` (`ast.dfy`): the `Expression` type, with the ten variants of the
  `Expression` enum (`packages/parser/src/parser.rs:7-18`) and their payloads
  (`Number`'s `i32` as the `Int32` newtype, boxes dropped), and the shape
  predicates that a successful parse satisfies (`IsCall`, `IsDeclaration`,
  `IsProgram`).
- `Grammar` (`grammar.dfy`): one function per rule. Each function's
  postcondition states the shape of its value. For the lexical rules and the
  loops it also states exactly when the rule succeeds. For the compound
  rules (keywords, padded literals, argument lists, calls, blocks and
  declarations), the lemmas in `RoundTrip` and `Behaviour` state when they
  succeed.
- `Printer` (`printer.dfy`): a canonical text for every tree the grammar can
  produce. This is the independent reference the rules are checked against.
- `RoundTrip` (`roundtrip.dfy`): every rule reads back exactly what the
  printer writes for it. For the whole program, parsing the printed text with
  any surrounding whitespace gives back the same declarations in the same
  order.
- `Behaviour` (`behaviour.dfy`): what the grammar rejects and tolerates:
  - keyword boundaries;
  - the fixed shape of the declaration headers;
  - line-break separation of calls, and how blank lines are handled;
  - literals without escapes;
  - rejection of unread input.
- `Examples` (`examples.dfy`): small sample programs, each
  accepted with its tree or rejected.

Some behaviour of the code is not what one might expect of the language. The
model follows the code:

- One might expect a call's chain to need at least one identifier. The
  chain's `separated_by` sets no minimum, so `("x")` is accepted as a call
  whose chain is empty.
- One might expect blank lines between calls to be tolerated. That holds
  only when the next call's chain is not empty. An empty chain starts with
  `(`, which no padding precedes, so the line break is given back
  (`Behaviour.BlankLineBeforeEmptyChain`), the block then finds `(` where it
  needs `}`, and a blank line before `("x")` makes the block fail
  (`Behaviour.BlankLineBlockFails`).
- A space before the line break that separates two calls makes the block
  fail. `newline()` is not padded, so `{a("x") ` followed by a line break and
  `b("y")}` is rejected (`Behaviour.SameLineCallsRejected` with padding that
  starts with a space).
- `f( )`, with a space between empty parentheses, is rejected. The padding
  of `string` is skipped only when a literal follows, so the space is given
  back and `)` is not found (`Behaviour.SpaceInEmptyArguments`).

## Model

| member | source | states |
|---|---|---|
| Chars.CharClassRelations | packages/parser/src/parser.rs:50-51 | every line break is whitespace, so padding can swallow line breaks; no whitespace character can be part of an identifier |
| Ast.ImportPathOneSlash | packages/parser/src/parser.rs:61 | the payload `t/e` built from two identifiers has exactly one `/`, at the position between them |
| Grammar.SkipWhitespace | packages/parser/src/parser.rs:21 | the padding skip never lengthens the input and stops at a non-whitespace character |
| Grammar.SkipWhitespaceDropsPrefix | packages/parser/src/parser.rs:21 | what the padding skip drops is all whitespace, and what it keeps is the rest of the input unchanged |
| Grammar.IdentRun | packages/parser/src/parser.rs:21 | the counted prefix is made of identifier characters, and is followed by the end of input or by a character that cannot continue an identifier |
| Grammar.IdentToken | packages/parser/src/parser.rs:21 | succeeds exactly when the input starts with a letter or `_`; reads an identifier that is a prefix of the input and is maximal |
| Grammar.Keyword | packages/parser/src/parser.rs:57 | on success the keyword is an identifier, the input starts with it, and no identifier character follows it |
| Grammar.PaddedIdent | packages/parser/src/parser.rs:21 | succeeds exactly when an identifier start follows the padding; the identifier is a prefix of the unpadded input; the rest is shorter and starts without padding |
| Grammar.QuoteFreeRun | packages/parser/src/parser.rs:25 | the counted prefix holds no `"` and ends at the end of input or at a `"` |
| Grammar.StringLiteral | packages/parser/src/parser.rs:24-28 | succeeds exactly when the input starts with `"` and another `"` follows; the payload holds no `"` and the input is the quoted payload followed by the rest |
| Grammar.PaddedString | packages/parser/src/parser.rs:35-37 | a padded literal yields a `String` argument without `"`, and consumes input |
| Grammar.Newline | packages/parser/src/parser.rs:50 | succeeds exactly when the input starts with a line-break character, and consumes input (what it consumes is stated by the three lemmas below) |
| RoundTrip.CrLfOn | packages/parser/src/parser.rs:50 | `\r\n` is read as one line break, with nothing of it left over |
| RoundTrip.LineBreakCharOn | packages/parser/src/parser.rs:50 | any single line-break character is read as one line break, except a `\r` that starts a `\r\n` |
| RoundTrip.NewlineShape | packages/parser/src/parser.rs:50 | conversely, whatever `newline()` consumes is `\r\n` or one line-break character, and never the `\r` of a `\r\n` alone |
| Grammar.AttributeAccess | packages/parser/src/parser.rs:30-33 | never fails; yields identifiers only (never `Dot`); yields nothing exactly when it consumes nothing |
| Grammar.MoreLinks | packages/parser/src/parser.rs:30-33 | the `. ident` tail: never fails, yields identifiers only, and yields nothing exactly when it consumes nothing |
| Grammar.ArgumentList | packages/parser/src/parser.rs:35-38 | never fails and yields only `String` arguments |
| Grammar.MoreArguments | packages/parser/src/parser.rs:35-38 | the `, string` tail never fails and yields only `String` arguments |
| Grammar.ApplyArguments | packages/parser/src/parser.rs:35-39 | succeeds only on input starting with `(`, consumes at least the two parentheses, and yields only `String` arguments |
| Grammar.Apply | packages/parser/src/parser.rs:41-45 | a parsed expression is a `FunctionCall` of a `Chain` of identifiers to string arguments |
| Grammar.Expressions | packages/parser/src/parser.rs:49-50 | never fails and yields only calls |
| Grammar.MoreExpressions | packages/parser/src/parser.rs:49-50 | the `newline expression` tail never fails and yields only calls |
| Grammar.Block | packages/parser/src/parser.rs:49-54 | a parsed block holds only calls, consumes at least its two braces, and leaves no leading padding |
| Grammar.ImportDecl | packages/parser/src/parser.rs:56-64 | a parsed import is an `Import` whose payload is `identifier/identifier` |
| Grammar.FunctionDecl | packages/parser/src/parser.rs:66-73 | a parsed function has an identifier name and a `Scope` body holding only calls |
| Grammar.FunctionOrImport | packages/parser/src/parser.rs:75 | a parse is a declaration and consumes input |
| Grammar.Declaration | packages/parser/src/parser.rs:78 | a parse is an `Import` or a `Function` of the shapes above, and consumes input |
| Grammar.Declarations | packages/parser/src/parser.rs:78 | never fails, and every node it yields is an import or a function |
| Grammar.Program | packages/parser/src/parser.rs:78 | every top-level node is an import or a function; the leftover starts without padding |
| Grammar.Parser | packages/parser/src/parser.rs:80 | accepts exactly when the program leaves no input, and then yields only imports and functions |
| RoundTrip.SkipWhitespaceOn | packages/parser/src/parser.rs:21 | padding in front of a non-whitespace character is skipped entirely |
| RoundTrip.IdentTokenOn | packages/parser/src/parser.rs:21 | an identifier is read whole, up to the first character that cannot continue it |
| RoundTrip.PaddedIdentOn | packages/parser/src/parser.rs:21 | padding before and after an identifier is skipped, and the identifier comes back unchanged |
| RoundTrip.StringLiteralOn | packages/parser/src/parser.rs:24-28 | a quoted payload without `"` is read back exactly, and the rest of the input is untouched |
| RoundTrip.PaddedStringOn | packages/parser/src/parser.rs:35-37 | padding around a literal is skipped, and the literal comes back unchanged |
| RoundTrip.LinksStop | packages/parser/src/parser.rs:30-33 | at `(` the chain ends without consuming anything |
| RoundTrip.MoreLinksOn | packages/parser/src/parser.rs:30-33 | the printed `.a.b` tail is read back as the same identifiers, in order |
| RoundTrip.AttributeAccessOn | packages/parser/src/parser.rs:30-33 | a printed chain `a.b.c` is read back as the same identifiers, in order |
| RoundTrip.ArgumentsStop | packages/parser/src/parser.rs:35-39 | at `)` the argument list ends without consuming anything |
| RoundTrip.MoreArgumentsOn | packages/parser/src/parser.rs:35-39 | the printed `,"x","y"` tail is read back as the same literals, in order |
| RoundTrip.ArgumentListOn | packages/parser/src/parser.rs:35-39 | a printed argument list is read back as the same literals, in order |
| RoundTrip.ApplyArgumentsOn | packages/parser/src/parser.rs:35-39 | a parenthesised argument list is read back as the same literals, in order |
| RoundTrip.ApplyOn | packages/parser/src/parser.rs:41-45 | a printed call is read back as the same call |
| RoundTrip.ExpressionsStop | packages/parser/src/parser.rs:49-52 | at `}` no call starts and the separator loop ends |
| RoundTrip.MoreExpressionsOn | packages/parser/src/parser.rs:49-50 | calls each behind a line break are read back in order, up to a point where the loop stops |
| RoundTrip.ExpressionsOn | packages/parser/src/parser.rs:49-50 | line-separated calls are read back in order, up to a point where no call can be read |
| RoundTrip.BlockOn | packages/parser/src/parser.rs:49-54 | a printed block is read back as the same calls; `{}` gives none |
| RoundTrip.KeywordsAreIdentifiers | packages/parser/src/parser.rs:57 | both keywords are identifiers, so `text::keyword` can match them |
| RoundTrip.KeywordOn | packages/parser/src/parser.rs:57 | a keyword followed by a non-identifier character is matched |
| RoundTrip.ImportDeclParts | packages/parser/src/parser.rs:56-61 | `import t/e` yields `Import(t + "/" + e)` |
| RoundTrip.ImportPathParts | packages/parser/src/parser.rs:61 | an import payload can be split back into its two identifiers |
| RoundTrip.ImportDeclOn | packages/parser/src/parser.rs:56-64 | a printed import is read back as the same import |
| RoundTrip.FunctionDeclParts | packages/parser/src/parser.rs:66-73 | `fun name()` and a block yield `Function(name, Scope(calls))` |
| RoundTrip.FunctionDeclOn | packages/parser/src/parser.rs:66-73 | a printed function is read back as the same function |
| RoundTrip.ImportRejectsFun | packages/parser/src/parser.rs:57 | `import` does not match a text that starts with the word `fun` |
| RoundTrip.FunctionNotImport | packages/parser/src/parser.rs:78 | a function declaration is never taken for an import |
| RoundTrip.DeclarationOn | packages/parser/src/parser.rs:75-78 | a printed declaration of either kind is read back as itself |
| RoundTrip.NoDeclarations | packages/parser/src/parser.rs:78 | the empty input holds no declaration |
| RoundTrip.DeclarationsOn | packages/parser/src/parser.rs:78 | the declarations of a printed program are read back in order, up to a point where no declaration starts |
| RoundTrip.ParserRoundTrip | packages/parser/src/parser.rs:78-80 | a printed program with any surrounding whitespace is accepted, with the same declarations in the same order |
| Behaviour.KeywordBoundary | packages/parser/src/parser.rs:57 | a keyword matches exactly when no identifier character follows it, so `funx` is not `fun` (both directions) |
| Behaviour.DeclarationNeedsKeyword | packages/parser/src/parser.rs:56-78 | every declaration starts with the word `import` or `fun`, followed by a (padded) identifier |
| Behaviour.ParserRejectsAround | packages/parser/src/parser.rs:78-80 | when no declaration starts after the leading padding of a non-blank input, the input is rejected |
| Behaviour.CallFirstWord | packages/parser/src/parser.rs:30-33 | the first word of a printed call is the first identifier of its chain |
| Behaviour.CallNoName | packages/parser/src/parser.rs:30-45 | after the first word of a call comes `.` or `(`, so no padded identifier can be read there |
| Behaviour.CallNotDeclaration | packages/parser/src/parser.rs:56-78 | no call is a declaration, not even one whose chain starts with `import` or `fun` (`import("a")`, `fun.x("a")`): a name is needed after the keyword |
| Behaviour.TopLevelCallRejected | packages/parser/src/parser.rs:78-80 | a call at the start of the input, after any padding and whatever its chain, makes the whole input rejected, whatever follows it |
| Behaviour.FunctionHeaderShape | packages/parser/src/parser.rs:67-72 | after `fun name`, a declaration parses exactly when `()` and a block follow (both directions) |
| Behaviour.ImportHeaderShape | packages/parser/src/parser.rs:57-60 | after `import namespace`, a declaration parses exactly when `/` and an identifier follow (both directions) |
| Behaviour.ImportPayloadOneSlash | packages/parser/src/parser.rs:57-61 | the payload of any parsed import has exactly one `/`, with an identifier on each side |
| Behaviour.BlockFailsAround | packages/parser/src/parser.rs:49-52 | a block fails when the next non-blank character after its calls is not `}` |
| Behaviour.MoreExpressionsNone | packages/parser/src/parser.rs:50 | the separator loop yields nothing where no line break follows |
| Behaviour.CallText | packages/parser/src/parser.rs:41-45 | a printed call starts with neither padding nor `}` |
| Behaviour.CallThenCall | packages/parser/src/parser.rs:49-50 | a call followed by padding that does not start with a line break (a space before the line break included) ends the call list after that one call |
| Behaviour.SameLineCallsRejected | packages/parser/src/parser.rs:49-53 | two calls separated by padding that does not start with a line break make the block fail: on one line, or with a space before the line break |
| Behaviour.LineBreakBeforeCall | packages/parser/src/parser.rs:50 | one line break in front of a call, `\r\n` included, is read whole |
| Behaviour.LineBreakSeparatesCalls | packages/parser/src/parser.rs:49-50 | two calls separated by one line break of any kind, `\r\n` included, are read as those two calls, even when the second chain is empty |
| Behaviour.EmptyBlockOn | packages/parser/src/parser.rs:49-54 | a block holding only padding yields no calls |
| Behaviour.ApplyFailsOnPadding | packages/parser/src/parser.rs:41-45 | padding in front of `}` starts no call |
| Behaviour.NoCallAt | packages/parser/src/parser.rs:30-45 | no call starts where neither an identifier (after padding) nor `(` comes first |
| Behaviour.MoreExpressionsBackAround | packages/parser/src/parser.rs:50 | a line break not followed by a call is given back |
| Behaviour.NewlineInPadding | packages/parser/src/parser.rs:50 | a line break inside padding leaves the rest of that padding |
| Behaviour.CallsEnd | packages/parser/src/parser.rs:49-52 | padding, line breaks included, before `}` ends the calls of a block |
| Behaviour.PaddedBlockOn | packages/parser/src/parser.rs:49-54 | padding around both braces does not change the calls a block yields |
| Behaviour.FunctionDeclarationParts | packages/parser/src/parser.rs:66-78 | `fun name()` followed by any block text is a declaration holding that block's calls |
| Behaviour.SingleDeclarationAround | packages/parser/src/parser.rs:78-80 | an input that is exactly one declaration is accepted as a one-element program |
| Behaviour.SingleFunctionAccepted | packages/parser/src/parser.rs:66-80 | one function whose block ends the input is accepted as the whole program |
| Behaviour.PaddedFunctionAccepted | packages/parser/src/parser.rs:49-80 | `fun name() { calls }`, padded inside and outside the braces, is accepted with those calls |
| Behaviour.EmptyFunctionAccepted | packages/parser/src/parser.rs:49-80 | `fun name() { }` is accepted with an empty scope |
| Behaviour.ParametersRejected | packages/parser/src/parser.rs:68-71 | any header text other than `()` after the function name and its padding makes the input rejected: `fun f(x) { }` and `fun f (x) { }` alike |
| Behaviour.AttributeAccessPadded | packages/parser/src/parser.rs:21-33 | padding, line breaks included, before a non-empty chain is skipped |
| Behaviour.ApplyPaddedOn | packages/parser/src/parser.rs:21-45 | padding before a call whose chain is not empty is skipped |
| Behaviour.BlankLinesAbsorbed | packages/parser/src/parser.rs:21-53 | blank lines between calls are tolerated when the next chain is not empty |
| Behaviour.BlankLineBeforeEmptyChain | packages/parser/src/parser.rs:30-53 | a blank line before a call with an empty chain is not absorbed, and the line break is given back |
| Behaviour.BlankLineBlockFails | packages/parser/src/parser.rs:21-53 | a call, a line break, more padding and then a call with an empty chain make the block fail |
| Behaviour.ApplyArgumentsFailsAround | packages/parser/src/parser.rs:35-39 | an argument list that stops before `)` makes the parenthesised list fail |
| Behaviour.MoreArgumentsNone | packages/parser/src/parser.rs:38 | the argument loop yields nothing where no comma follows |
| Behaviour.LiteralPadded | packages/parser/src/parser.rs:24-37 | a literal is read back, and the padding after it skipped |
| Behaviour.LiteralThenStop | packages/parser/src/parser.rs:24-38 | one literal followed by a non-comma is a one-element argument list |
| Behaviour.SpaceInEmptyArguments | packages/parser/src/parser.rs:35-39 | padding alone between `(` and `)` makes the argument list fail: `f( )` is not a call |
| Behaviour.QuoteEndsArgument | packages/parser/src/parser.rs:24-39 | a literal ends at its second `"`, so anything but `,` or `)` after it makes the call fail |
| Behaviour.ParserLeftoverAround | packages/parser/src/parser.rs:80 | input left unread by the program makes the parse fail |
| Behaviour.TrailingInputRejected | packages/parser/src/parser.rs:78-80 | a program followed by text that starts no declaration is rejected; there is no partial success |
| Behaviour.CallAfterProgramRejected | packages/parser/src/parser.rs:78-80 | a call after the declarations of a program (after padding, or directly when its chain is empty) makes the whole input rejected |
| Examples.ConsoleLog | packages/parser/src/parser.rs:41-45 | `console.log("hi")` is a call of the shape the grammar produces |
| Examples.ImportExample | packages/parser/src/parser.rs:56-61 | `import fs/read` gives `[Import("fs/read")]` |
| Examples.MainExample | packages/parser/src/parser.rs:41-80 | `fun main() { console.log("hi") }` gives the function with that one call |
| Examples.EmptyFunctionExample | packages/parser/src/parser.rs:49-80 | `fun f() { }` gives a function with an empty scope |
| Examples.ParameterExample | packages/parser/src/parser.rs:69-71 | `fun f(x) { }` is rejected |
| Examples.ChainCall | packages/parser/src/parser.rs:30-45 | `a.b.c("x","y")` is a call of the shape the grammar produces |
| Examples.TopLevelCallExample | packages/parser/src/parser.rs:78-80 | `a.b.c("x","y")` alone is rejected as a program |
| Examples.FirstCall | packages/parser/src/parser.rs:41-45 | `a("x")` is a call with a non-empty chain |
| Examples.EmptyChainCall | packages/parser/src/parser.rs:30-45 | `("y")` is a call whose chain is empty |
| Examples.CrLfExample | packages/parser/src/parser.rs:49-50 | `a("x")`, `\r\n`, `("y")` inside a block gives both calls |
| Examples.UnescapedQuoteExample | packages/parser/src/parser.rs:24-39 | `("a"b")` is not an argument list: `"a"b"` is not one literal |

## Left out

- The command-line entry point (`packages/compiler/src/main.rs`) is not modelled. It only reads a file and prints it, and never calls the parser.
- Error values are not modelled. chumsky's `Simple<char>` errors, with their expected and found sets, spans and merging, collapse to `NoParse` for a rule and `Rejected` for the whole parser.
- `Number`, `Empty` and `Dot` are declared in `Ast.Expression` but never built. `Dot` is only a separator inside a chain, where the model reads a bare `.`.
- The whitespace set is the Unicode White_Space property that `char::is_whitespace` tests, written out as ranges.
- The line-break set is the one `newline()` accepts.
- The combinator semantics are assumed, not derived from the library: `padded`, `separated_by` giving back a trailing separator, `repeated`, `or`, `text::ident` (ASCII) and `text::keyword`. These follow chumsky 0.9.
- The round trip is proved for the printer's canonical layout. That layout has no padding except after a keyword, and `\n` between calls and between declarations. Padding inside blocks is covered separately (`Behaviour.PaddedBlockOn`, `Behaviour.BlankLinesAbsorbed`).
- The round trip is not proved for arbitrary padding elsewhere, such as around dots, commas or the function name.
