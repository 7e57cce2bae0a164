/** The grammar built by `parser()`, one function per combinator rule.
    Every rule takes the remaining input and either fails or returns the
    value it built together with the input it left. Ordered choice, optional
    repetition and separated lists backtrack exactly as the combinators do:
    a separator that is not followed by an item is given back. */
module Grammar {
  import opened Chars
  import opened Ast

  datatype Parse<T> = Parsed(value: T, rest: string) | NoParse

  /** What `parser()` delivers once `end()` has been checked: the whole
      program, or a rejection. Error positions and expected-token sets are
      not modelled. */
  datatype Outcome = Accepted(ast: seq<Expression>) | Rejected

  predicate StartsWith(s: string, c: char) {
    s != [] && s[0] == c
  }

  // ---------------------------------------------------------------- lexical

  /** `.padded()`'s whitespace skip: drops the longest whitespace prefix. */
  function SkipWhitespace(s: string): (r: string)
    ensures |r| <= |s|
    ensures r == [] || !IsWhitespace(r[0])
  {
    if s != [] && IsWhitespace(s[0]) then SkipWhitespace(s[1..]) else s
  }

  /** What `SkipWhitespace` drops is whitespace, and what it keeps is the
      rest of the input, unchanged. */
  lemma {:induction false} SkipWhitespaceDropsPrefix(s: string)
    ensures var r := SkipWhitespace(s);
      && s == s[..|s| - |r|] + r
      && AllWhitespace(s[..|s| - |r|])
  {
    if s != [] && IsWhitespace(s[0]) {
      SkipWhitespaceDropsPrefix(s[1..]);
      var r := SkipWhitespace(s);
      assert s[..|s| - |r|] == [s[0]] + s[1..][..|s| - 1 - |r|];
    }
  }

  /** Length of the longest prefix made of identifier characters. */
  function IdentRun(s: string): (n: nat)
    ensures n <= |s|
    ensures forall i :: 0 <= i < n ==> IsIdentChar(s[i])
    ensures n == |s| || !IsIdentChar(s[n])
  {
    if s != [] && IsIdentChar(s[0]) then 1 + IdentRun(s[1..]) else 0
  }

  /** `text::ident()`: the longest identifier at the start of the input. */
  function IdentToken(s: string): (r: Parse<string>)
    ensures r.Parsed? <==> s != [] && IsIdentStart(s[0])
    ensures r.Parsed? ==> IsIdentifier(r.value) && s == r.value + r.rest
    ensures r.Parsed? ==> r.rest == [] || !IsIdentChar(r.rest[0])
  {
    if s != [] && IsIdentStart(s[0]) then
      var n := 1 + IdentRun(s[1..]);
      assert s == s[..n] + s[n..];
      Parsed(s[..n], s[n..])
    else
      NoParse
  }

  /** `text::keyword(kw)`: an identifier that must be exactly `kw`. */
  function Keyword(kw: string, s: string): (r: Parse<()>)
    ensures r.Parsed? ==> IsIdentifier(kw) && s == kw + r.rest
    ensures r.Parsed? ==> r.rest == [] || !IsIdentChar(r.rest[0])
  {
    match IdentToken(s)
    case NoParse => NoParse
    case Parsed(word, rest) => if word == kw then Parsed((), rest) else NoParse
  }

  /** `ident` (parser.rs line 21): `text::ident().padded()`. */
  function PaddedIdent(s: string): (r: Parse<string>)
    ensures r.Parsed? <==> SkipWhitespace(s) != [] && IsIdentStart(SkipWhitespace(s)[0])
    ensures r.Parsed? ==> IsIdentifier(r.value) && r.value <= SkipWhitespace(s)
    ensures r.Parsed? ==> |r.rest| < |s| && (r.rest == [] || !IsWhitespace(r.rest[0]))
  {
    match IdentToken(SkipWhitespace(s))
    case NoParse => NoParse
    case Parsed(id, rest) => Parsed(id, SkipWhitespace(rest))
  }

  /** Length of the longest prefix holding no `"`. */
  function QuoteFreeRun(s: string): (n: nat)
    ensures n <= |s| && '"' !in s[..n]
    ensures n == |s| || s[n] == '"'
  {
    if s != [] && s[0] != '"' then
      var n := 1 + QuoteFreeRun(s[1..]);
      assert s[..n] == [s[0]] + s[1..][..n - 1];
      n
    else
      0
  }

  /** `string`: a `"`, every character up to the next `"`, and that `"`. */
  function StringLiteral(s: string): (r: Parse<Expression>)
    ensures r.Parsed? <==> StartsWith(s, '"') && '"' in s[1..]
    ensures r.Parsed? ==> r.value.String? && '"' !in r.value.text
    ensures r.Parsed? ==> s == "\"" + r.value.text + "\"" + r.rest
  {
    if StartsWith(s, '"') then
      var n := QuoteFreeRun(s[1..]);
      if n < |s| - 1 then
        assert s == "\"" + s[1..n + 1] + "\"" + s[n + 2..];
        Parsed(String(s[1..n + 1]), s[n + 2..])
      else
        assert s[1..] == s[1..][..n];
        NoParse
    else
      NoParse
  }

  /** `string.padded()`, the item of an argument list. */
  function PaddedString(s: string): (r: Parse<Expression>)
    ensures r.Parsed? ==> IsArgument(r.value)
    ensures r.Parsed? ==> |r.rest| < |s| && (r.rest == [] || !IsWhitespace(r.rest[0]))
  {
    match StringLiteral(SkipWhitespace(s))
    case NoParse => NoParse
    case Parsed(e, rest) => Parsed(e, SkipWhitespace(rest))
  }

  /** `newline()`: "\r\n", or a single line-break character. */
  function Newline(s: string): (r: Parse<()>)
    ensures r.Parsed? <==> s != [] && IsNewlineChar(s[0])
    ensures r.Parsed? ==> |r.rest| < |s|
  {
    if |s| >= 2 && s[0] == '\r' && s[1] == '\n' then Parsed((), s[2..])
    else if s != [] && IsNewlineChar(s[0]) then Parsed((), s[1..])
    else NoParse
  }

  // ------------------------------------------------------------ expressions

  /** `attribute_access`: identifiers separated by `.`, possibly none. */
  function AttributeAccess(s: string): (r: Parse<seq<Expression>>)
    ensures r.Parsed? && |r.rest| <= |s|
    ensures AllLinks(r.value)
    ensures r.value == [] <==> r.rest == s
  {
    match PaddedIdent(s)
    case NoParse => Parsed([], s)
    case Parsed(id, rest) =>
      var more := MoreLinks(rest);
      LinksCons(Ident(id), more.value);
      Parsed([Ident(id)] + more.value, more.rest)
  }

  /** The `(. ident)*` tail of `attribute_access`. */
  function MoreLinks(s: string): (r: Parse<seq<Expression>>)
    decreases |s|
    ensures r.Parsed? && |r.rest| <= |s|
    ensures AllLinks(r.value)
    ensures r.value == [] <==> r.rest == s
  {
    if StartsWith(s, '.') then
      match PaddedIdent(s[1..])
      case NoParse => Parsed([], s)
      case Parsed(id, rest) =>
        var more := MoreLinks(rest);
        LinksCons(Ident(id), more.value);
        Parsed([Ident(id)] + more.value, more.rest)
    else
      Parsed([], s)
  }

  /** The comma-separated padded string literals inside `apply_arguments`. */
  function ArgumentList(s: string): (r: Parse<seq<Expression>>)
    ensures r.Parsed? && |r.rest| <= |s|
    ensures AllArguments(r.value)
  {
    match PaddedString(s)
    case NoParse => Parsed([], s)
    case Parsed(a, rest) =>
      var more := MoreArguments(rest);
      ArgumentsCons(a, more.value);
      Parsed([a] + more.value, more.rest)
  }

  /** The `(, string)*` tail of an argument list. */
  function MoreArguments(s: string): (r: Parse<seq<Expression>>)
    decreases |s|
    ensures r.Parsed? && |r.rest| <= |s|
    ensures AllArguments(r.value)
  {
    if StartsWith(s, ',') then
      match PaddedString(s[1..])
      case NoParse => Parsed([], s)
      case Parsed(a, rest) =>
        var more := MoreArguments(rest);
        ArgumentsCons(a, more.value);
        Parsed([a] + more.value, more.rest)
    else
      Parsed([], s)
  }

  /** `apply_arguments`: an argument list between `(` and `)`. */
  function ApplyArguments(s: string): (r: Parse<seq<Expression>>)
    ensures r.Parsed? ==> StartsWith(s, '(') && |r.rest| + 2 <= |s|
    ensures r.Parsed? ==> AllArguments(r.value)
  {
    if StartsWith(s, '(') then
      var items := ArgumentList(s[1..]);
      if StartsWith(items.rest, ')') then Parsed(items.value, items.rest[1..]) else NoParse
    else
      NoParse
  }

  /** `apply`, the only expression: a chain applied to an argument list. */
  function Apply(s: string): (r: Parse<Expression>)
    ensures r.Parsed? ==> IsCall(r.value) && |r.rest| + 2 <= |s|
  {
    var chain := AttributeAccess(s);
    match ApplyArguments(chain.rest)
    case NoParse => NoParse
    case Parsed(args, rest) => Parsed(FunctionCall(Chain(chain.value), args), rest)
  }

  /** The expressions of a block, separated by `newline()`. */
  function Expressions(s: string): (r: Parse<seq<Expression>>)
    ensures r.Parsed? && |r.rest| <= |s|
    ensures AllCalls(r.value)
  {
    match Apply(s)
    case NoParse => Parsed([], s)
    case Parsed(e, rest) =>
      var more := MoreExpressions(rest);
      CallsCons(e, more.value);
      Parsed([e] + more.value, more.rest)
  }

  /** The `(newline expression)*` tail of a block. */
  function MoreExpressions(s: string): (r: Parse<seq<Expression>>)
    decreases |s|
    ensures r.Parsed? && |r.rest| <= |s|
    ensures AllCalls(r.value)
  {
    match Newline(s)
    case NoParse => Parsed([], s)
    case Parsed(_, afterBreak) =>
      match Apply(afterBreak)
      case NoParse => Parsed([], s)
      case Parsed(e, rest) =>
        var more := MoreExpressions(rest);
        CallsCons(e, more.value);
        Parsed([e] + more.value, more.rest)
  }

  /** `block`: padded `{`, padded expressions, `}`, padded. */
  function Block(s: string): (r: Parse<seq<Expression>>)
    ensures r.Parsed? ==> AllCalls(r.value)
    ensures r.Parsed? ==> |r.rest| + 2 <= |s| && (r.rest == [] || !IsWhitespace(r.rest[0]))
  {
    var open := SkipWhitespace(s);
    if StartsWith(open, '{') then
      var inner := SkipWhitespace(open[1..]);
      var body := Expressions(inner);
      var close := SkipWhitespace(body.rest);
      if StartsWith(close, '}') then
        var rest := SkipWhitespace(close[1..]);
        assert |rest| < |close| <= |body.rest| <= |inner| < |open| <= |s|;
        Parsed(body.value, rest)
      else
        NoParse
    else
      NoParse
  }

  // ----------------------------------------------------------- declarations

  /** `import`: keyword `import`, an identifier, `/`, an identifier. */
  function ImportDecl(s: string): (r: Parse<Expression>)
    ensures r.Parsed? ==> r.value.Import? && IsImportPath(r.value.path)
    ensures r.Parsed? ==> |r.rest| < |s| && (r.rest == [] || !IsWhitespace(r.rest[0]))
  {
    match Keyword("import", s)
    case NoParse => NoParse
    case Parsed(_, afterKeyword) =>
      match PaddedIdent(afterKeyword)
      case NoParse => NoParse
      case Parsed(namespace, afterNamespace) =>
        if StartsWith(afterNamespace, '/') then
          match PaddedIdent(afterNamespace[1..])
          case NoParse => NoParse
          case Parsed(entry, rest) =>
            ImportPathOneSlash(namespace, entry);
            Parsed(Import(namespace + "/" + entry), rest)
        else
          NoParse
  }

  /** `function`: keyword `fun`, an identifier, exactly `()`, a block. */
  function FunctionDecl(s: string): (r: Parse<Expression>)
    ensures r.Parsed? ==> r.value.Function? && IsDeclaration(r.value)
    ensures r.Parsed? ==> |r.rest| < |s| && (r.rest == [] || !IsWhitespace(r.rest[0]))
  {
    match Keyword("fun", s)
    case NoParse => NoParse
    case Parsed(_, afterKeyword) =>
      match PaddedIdent(afterKeyword)
      case NoParse => NoParse
      case Parsed(name, afterName) =>
        if StartsWith(afterName, '(') && StartsWith(afterName[1..], ')') then
          match Block(afterName[2..])
          case NoParse => NoParse
          case Parsed(body, rest) => Parsed(Function(name, Scope(body)), rest)
        else
          NoParse
  }

  /** The `recursive` wrapper at parser.rs line 66: `function.or(import)`. */
  function FunctionOrImport(s: string): (r: Parse<Expression>)
    ensures r.Parsed? ==> IsDeclaration(r.value)
    ensures r.Parsed? ==> |r.rest| < |s| && (r.rest == [] || !IsWhitespace(r.rest[0]))
  {
    var f := FunctionDecl(s);
    if f.Parsed? then f else ImportDecl(s)
  }

  /** The item repeated by `program`: `import.or(function)`. */
  function Declaration(s: string): (r: Parse<Expression>)
    ensures r.Parsed? ==> IsDeclaration(r.value)
    ensures r.Parsed? ==> |r.rest| < |s| && (r.rest == [] || !IsWhitespace(r.rest[0]))
  {
    var i := ImportDecl(s);
    if i.Parsed? then i else FunctionOrImport(s)
  }

  /** `.repeated()` over declarations: as many as parse, in source order. */
  function Declarations(s: string): (r: Parse<seq<Expression>>)
    decreases |s|
    ensures r.Parsed? && |r.rest| <= |s|
    ensures IsProgram(r.value)
  {
    match Declaration(s)
    case NoParse => Parsed([], s)
    case Parsed(d, rest) =>
      var more := Declarations(rest);
      ProgramCons(d, more.value);
      Parsed([d] + more.value, more.rest)
  }

  /** `program`: the padded repetition of declarations. */
  function Program(s: string): (r: Parse<seq<Expression>>)
    ensures r.Parsed? && IsProgram(r.value)
    ensures r.rest == [] || !IsWhitespace(r.rest[0])
  {
    var ds := Declarations(SkipWhitespace(s));
    Parsed(ds.value, SkipWhitespace(ds.rest))
  }

  /** `parser()`: `program` followed by `end()`; there is no partial success. */
  function Parser(s: string): (r: Outcome)
    ensures r.Accepted? ==> IsProgram(r.ast)
    ensures r.Accepted? <==> Program(s).rest == []
  {
    var p := Program(s);
    if p.rest == [] then Accepted(p.value) else Rejected
  }
}
