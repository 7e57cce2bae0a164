/** What the grammar accepts and rejects beyond the round trip: keyword
    boundaries, the fixed shape of the declaration headers, how calls must be
    separated inside a block, and the rejection of anything `program` cannot
    consume. */
module Behaviour {
  import opened Chars
  import opened Ast
  import opened Grammar
  import opened Printer
  import opened RoundTrip

  // --------------------------------------------------------------- keywords

  /** A keyword only matches a whole identifier: `fun` followed by an
      identifier character (as in `funx`) is not the keyword `fun`. */
  lemma KeywordBoundary(kw: string, r: string)
    requires IsIdentifier(kw)
    ensures Keyword(kw, kw + r).Parsed? <==> (r == [] || !IsIdentChar(r[0]))
  {
    if r == [] || !IsIdentChar(r[0]) {
      KeywordOn(kw, r);
    } else {
      var s := kw + r;
      var n := IdentRun(s[1..]);
      assert forall i :: 0 <= i < |kw| ==> IsIdentChar(s[1..][i]);
      assert n >= |kw|;
      assert |IdentToken(s).value| == n + 1;
    }
  }

  /** Every declaration starts with one of the two keywords. */
  lemma DeclarationNeedsKeyword(s: string)
    ensures Declaration(s).Parsed? ==>
      && IdentToken(s).Parsed? && (IdentToken(s).value == "import" || IdentToken(s).value == "fun")
      && PaddedIdent(IdentToken(s).rest).Parsed?
  {
  }

  /** `parser()` fails at once when the first word of the input, if any, is
      neither keyword; in particular a call such as `a.b.c("x","y")` is not a
      valid program, wherever it appears at top level. */
  lemma ParserRejectsAround(s: string)
    requires SkipWhitespace(s) != [] && Declaration(SkipWhitespace(s)).NoParse?
    ensures Parser(s) == Rejected
  {
    var t := SkipWhitespace(s);
    DeclarationsNone(t);
    assert SkipWhitespace(t) == t;
  }

  /** The first identifier of a printed call, and what follows it. */
  lemma CallFirstWord(c: Expression, r: string)
    requires IsCall(c) && c.callee.links != []
    ensures IdentToken(PrintCall(c) + r) == Parsed(c.callee.links[0].name,
      PrintMoreLinks(c.callee.links[1..]) + ("(" + (PrintArguments(c.args) + (")" + r))))
  {
    var links := c.callee.links;
    var argsText := "(" + (PrintArguments(c.args) + (")" + r));
    PrintCallSplit(c, r);
    PrintLinksCons(links, argsText);
    LinksTail(links);
    PrintMoreLinksStart(links[1..], argsText);
    IdentTokenOn(links[0].name, PrintMoreLinks(links[1..]) + argsText);
  }

  /** After the first word of a call comes `.` or `(`, never a name. */
  lemma CallNoName(c: Expression, r: string)
    requires IsCall(c) && c.callee.links != []
    ensures IdentToken(PrintCall(c) + r).Parsed?
    ensures PaddedIdent(IdentToken(PrintCall(c) + r).rest).NoParse?
  {
    var links := c.callee.links;
    var argsText := "(" + (PrintArguments(c.args) + (")" + r));
    var afterWord := PrintMoreLinks(links[1..]) + argsText;
    CallFirstWord(c, r);
    LinksTail(links);
    PrintMoreLinksStart(links[1..], argsText);
    assert SkipWhitespace(afterWord) == afterWord;
  }

  /** A call is never a declaration: its first word is not a keyword, or it
      is one but a `.` or `(` follows where a name is needed, as in
      `fun.x("a")` or `import("a")`. */
  lemma CallNotDeclaration(c: Expression, r: string)
    requires IsCall(c)
    ensures Declaration(PrintCall(c) + r).NoParse?
  {
    PrintCallStart(c);
    DeclarationNeedsKeyword(PrintCall(c) + r);
    if c.callee.links != [] {
      CallNoName(c, r);
    } else {
      assert (PrintCall(c) + r)[0] == '(';
    }
  }

  /** A call at the start of the input, after any padding and whatever its
      chain, makes the whole input rejected. */
  lemma TopLevelCallRejected(c: Expression, w: string, r: string)
    requires IsCall(c) && AllWhitespace(w)
    ensures Parser(w + (PrintCall(c) + r)) == Rejected
  {
    var text := PrintCall(c) + r;
    CallText(c, r);
    SkipWhitespaceOn(w, text);
    CallNotDeclaration(c, r);
    ParserRejectsAround(w + text);
  }

  // ----------------------------------------------------- declaration headers

  /** What `function` still needs once its keyword and name have been read. */
  lemma FunctionHeaderAround(s: string, afterKeyword: string, name: string, t: string)
    requires Keyword("fun", s) == Parsed((), afterKeyword)
    requires PaddedIdent(afterKeyword) == Parsed(name, t)
    ensures FunctionDecl(s).Parsed? <==> |t| >= 2 && t[0] == '(' && t[1] == ')' && Block(t[2..]).Parsed?
  {
  }

  /** After `fun` and its name (and any padding), a function declaration
      needs exactly `()` and a block: `fun f(x) { }` is rejected, because no
      parameter list other than the empty one exists. */
  lemma FunctionHeaderShape(name: string, after: string)
    requires IsIdentifier(name)
    requires after == [] || !IsIdentChar(after[0])
    ensures var t := SkipWhitespace(after);
      (FunctionDecl("fun" + (" " + name + after)).Parsed?
       <==> |t| >= 2 && t[0] == '(' && t[1] == ')' && Block(t[2..]).Parsed?)
  {
    var afterKeyword := " " + name + after;
    assert IsWhitespace(' ');
    KeywordsAreIdentifiers();
    KeywordOn("fun", afterKeyword);
    PaddedIdentOn(" ", name, after);
    FunctionHeaderAround("fun" + afterKeyword, afterKeyword, name, SkipWhitespace(after));
  }

  /** What `import` still needs once its keyword and namespace have been read. */
  lemma ImportHeaderAround(s: string, afterKeyword: string, namespace: string, t: string)
    requires Keyword("import", s) == Parsed((), afterKeyword)
    requires PaddedIdent(afterKeyword) == Parsed(namespace, t)
    ensures ImportDecl(s).Parsed? <==> StartsWith(t, '/') && PaddedIdent(t[1..]).Parsed?
  {
  }

  /** After `import` and the namespace (and any padding), an import needs a
      `/` and a second identifier. */
  lemma ImportHeaderShape(namespace: string, after: string)
    requires IsIdentifier(namespace)
    requires after == [] || !IsIdentChar(after[0])
    ensures var t := SkipWhitespace(after);
      (ImportDecl("import" + (" " + namespace + after)).Parsed?
       <==> StartsWith(t, '/') && PaddedIdent(t[1..]).Parsed?)
  {
    var afterKeyword := " " + namespace + after;
    assert IsWhitespace(' ');
    KeywordsAreIdentifiers();
    KeywordOn("import", afterKeyword);
    PaddedIdentOn(" ", namespace, after);
    ImportHeaderAround("import" + afterKeyword, afterKeyword, namespace, SkipWhitespace(after));
  }

  /** The payload of a parsed import holds exactly one `/`, with an
      identifier on each side of it. */
  lemma ImportPayloadOneSlash(s: string)
    ensures ImportDecl(s).Parsed? ==>
      var p := ImportDecl(s).value.path;
      && multiset(p)['/'] == 1
      && exists i :: 0 <= i < |p| && p[i] == '/' && IsIdentifier(p[..i]) && IsIdentifier(p[i + 1..])
  {
    if ImportDecl(s).Parsed? {
      var p := ImportDecl(s).value.path;
      var namespace, entry := ImportPathParts(p);
      ImportPathOneSlash(namespace, entry);
    }
  }

  // ------------------------------------------------------------------ blocks

  /** `block` fails when, after the calls it could read, the next
      non-blank character is not `}`. */
  lemma BlockFailsAround(s: string, open: string, inner: string, cs: seq<Expression>,
                         bodyRest: string)
    requires SkipWhitespace(s) == open && StartsWith(open, '{')
    requires SkipWhitespace(open[1..]) == inner
    requires Expressions(inner) == Parsed(cs, bodyRest)
    requires !StartsWith(SkipWhitespace(bodyRest), '}')
    ensures Block(s).NoParse?
  {
  }

  /** The separator loop gives nothing back where no line break follows. */
  lemma MoreExpressionsNone(s: string)
    requires Newline(s).NoParse?
    ensures MoreExpressions(s) == Parsed([], s)
  {
  }

  /** A printed call, with anything after it, starts with neither padding
      nor a closing brace. */
  lemma CallText(c: Expression, r: string)
    requires IsCall(c)
    ensures var text := PrintCall(c) + r;
      && text != [] && !IsWhitespace(text[0]) && text[0] != '}'
      && SkipWhitespace(text) == text
  {
    var text := PrintCall(c) + r;
    PrintCallStart(c);
    assert text[0] == PrintCall(c)[0];
    CharClassRelations(text[0]);
  }

  /** A printed call followed by padding and another printed call. */
  lemma CallThenCall(c1: Expression, w: string, c2: Expression, r: string)
    requires IsCall(c1) && IsCall(c2) && AllWhitespace(w)
    requires w == [] || !IsNewlineChar(w[0])
    ensures var gap := w + (PrintCall(c2) + r);
      && Expressions(PrintCall(c1) + gap) == Parsed([c1], gap)
      && !StartsWith(SkipWhitespace(gap), '}')
  {
    var next := PrintCall(c2) + r;
    var gap := w + next;
    CallText(c2, r);
    SkipWhitespaceOn(w, next);
    ApplyOn(c1, gap);
    assert gap[0] == if w == [] then next[0] else w[0];
    MoreExpressionsNone(gap);
    assert [c1] + [] == [c1];
    ExpressionsCons(PrintCall(c1) + gap, c1, gap, [], gap);
  }

  /** Two calls separated by padding that does not start with a line break
      are not a block: calls are separated by line breaks only, and
      `newline()` is not padded. So `{ a() b() }` is rejected, and so is a
      block where a space stands between `a()` and the line break before
      `b()`. */
  lemma SameLineCallsRejected(c1: Expression, w: string, c2: Expression, r: string)
    requires IsCall(c1) && IsCall(c2) && AllWhitespace(w)
    requires w == [] || !IsNewlineChar(w[0])
    ensures Block("{" + (PrintCall(c1) + (w + (PrintCall(c2) + ("}" + r))))).NoParse?
  {
    var gap := w + (PrintCall(c2) + ("}" + r));
    var inner := PrintCall(c1) + gap;
    CallText(c1, gap);
    BraceOn('{', inner);
    CallThenCall(c1, w, c2, "}" + r);
    BlockFailsAround("{" + inner, "{" + inner, inner, [c1], gap);
  }

  /** One line break in front of a printed call is read whole, "\r\n"
      included: a call never starts with `\n`. */
  lemma LineBreakBeforeCall(nl: string, c: Expression, r: string)
    requires IsCall(c)
    requires nl == "\r\n" || (|nl| == 1 && IsNewlineChar(nl[0]))
    ensures Newline(nl + (PrintCall(c) + r)) == Parsed((), PrintCall(c) + r)
  {
    var next := PrintCall(c) + r;
    PrintCallStart(c);
    assert next[0] == PrintCall(c)[0];
    if nl == "\r\n" {
      CrLfOn(next);
    } else {
      assert nl == [nl[0]];
      LineBreakCharOn(nl[0], next);
    }
  }

  /** Two calls separated by one line break, "\r\n" included, are read as
      two calls. The second call may have an empty chain: "\r\n" is read
      whole, so no `\n` is left in front of its `(`. */
  lemma LineBreakSeparatesCalls(c1: Expression, nl: string, c2: Expression, r: string)
    requires IsCall(c1) && IsCall(c2)
    requires nl == "\r\n" || (|nl| == 1 && IsNewlineChar(nl[0]))
    requires MoreExpressions(r) == Parsed([], r)
    ensures Expressions(PrintCall(c1) + (nl + (PrintCall(c2) + r))) == Parsed([c1, c2], r)
  {
    var next := PrintCall(c2) + r;
    var tail := nl + next;
    LineBreakBeforeCall(nl, c2, r);
    ApplyOn(c1, tail);
    ApplyOn(c2, r);
    MoreExpressionsCons(tail, next, c2, r, [], r);
    assert [c2] + [] == [c2] && [c1] + [c2] == [c1, c2];
    ExpressionsCons(PrintCall(c1) + tail, c1, tail, [c2], r);
  }

  /** A block holding only padding is an empty scope: `fun f() { }`. */
  lemma EmptyBlockOn(w1: string, w2: string, r: string)
    requires AllWhitespace(w1) && AllWhitespace(w2)
    ensures Block(w1 + ("{" + (w2 + ("}" + r)))) == Parsed([], SkipWhitespace(r))
  {
    var close := "}" + r;
    var open := "{" + (w2 + close);
    BraceOn('{', w2 + close);
    BraceOn('}', r);
    SkipWhitespaceOn(w1, open);
    SkipWhitespaceOn(w2, close);
    ExpressionsStop(close);
    assert Expressions(close) == Parsed([], close);
    BlockAround(w1 + open, open, close, [], close, close, SkipWhitespace(r));
  }

  /** Padding in front of a closing brace starts no call. */
  lemma ApplyFailsOnPadding(w: string, r: string)
    requires AllWhitespace(w)
    ensures Apply(w + ("}" + r)).NoParse?
  {
    var s := w + ("}" + r);
    BraceOn('}', r);
    SkipWhitespaceOn(w, "}" + r);
    assert s[0] == if w == [] then '}' else w[0];
    NoCallAt(s);
  }

  /** No call starts where neither an identifier nor `(` comes first. */
  lemma NoCallAt(s: string)
    requires SkipWhitespace(s) == [] || !IsIdentStart(SkipWhitespace(s)[0])
    requires !StartsWith(s, '(')
    ensures Apply(s).NoParse?
  {
    assert AttributeAccess(s) == Parsed([], s);
  }

  /** The separator loop gives a line break back when no call follows it. */
  lemma MoreExpressionsBackAround(s: string, afterBreak: string)
    requires Newline(s) == Parsed((), afterBreak) && Apply(afterBreak).NoParse?
    ensures MoreExpressions(s) == Parsed([], s)
  {
  }

  /** A line break inside the padding in front of a closing brace leaves
      the rest of that padding. */
  lemma NewlineInPadding(w: string, r: string) returns (k: nat)
    requires AllWhitespace(w) && Newline(w + ("}" + r)).Parsed?
    ensures 1 <= k <= |w| && Newline(w + ("}" + r)) == Parsed((), w[k..] + ("}" + r))
  {
    var s := w + ("}" + r);
    assert s[0] == if w == [] then '}' else w[0];
    k := if |w| >= 2 && w[0] == '\r' && w[1] == '\n' then 2 else 1;
    assert s[k..] == w[k..] + ("}" + r);
  }

  /** Padding, line breaks included, in front of the closing brace ends the
      calls of a block. */
  lemma CallsEnd(w: string, r: string)
    requires AllWhitespace(w)
    ensures var s := w + ("}" + r);
      Apply(s).NoParse? && MoreExpressions(s) == Parsed([], s)
  {
    var s := w + ("}" + r);
    ApplyFailsOnPadding(w, r);
    if Newline(s).NoParse? {
      MoreExpressionsNone(s);
    } else {
      var k := NewlineInPadding(w, r);
      ApplyFailsOnPadding(w[k..], r);
      MoreExpressionsBackAround(s, w[k..] + ("}" + r));
    }
  }

  /** A block with padding around each brace reads back the same calls as
      the printed block: `{ a() }` and `{a()}` are the same scope. */
  lemma PaddedBlockOn(w1: string, w2: string, cs: seq<Expression>, w3: string, r: string)
    requires AllWhitespace(w1) && AllWhitespace(w2) && AllWhitespace(w3)
    requires AllCalls(cs) && cs != []
    ensures Block(w1 + ("{" + (w2 + (PrintExpressions(cs) + (w3 + ("}" + r))))))
         == Parsed(cs, SkipWhitespace(r))
  {
    var close := "}" + r;
    var bodyRest := w3 + close;
    var inner := PrintExpressions(cs) + bodyRest;
    var open := "{" + (w2 + inner);
    BraceOn('{', w2 + inner);
    SkipWhitespaceOn(w1, open);
    PrintExpressionsCons(cs, bodyRest);
    CallText(cs[0], PrintMoreExpressions(cs[1..]) + bodyRest);
    SkipWhitespaceOn(w2, inner);
    CallsEnd(w3, r);
    ExpressionsOn(cs, bodyRest);
    BraceOn('}', r);
    SkipWhitespaceOn(w3, close);
    BlockAround(w1 + open, open, inner, cs, bodyRest, close, SkipWhitespace(r));
  }

  /** A function declaration with any block text after its header. */
  lemma FunctionDeclarationParts(name: string, blockText: string, cs: seq<Expression>, rest: string)
    requires IsIdentifier(name) && Block(blockText) == Parsed(cs, rest)
    ensures Declaration("fun" + (" " + name + ("()" + blockText))) == Parsed(Function(name, Scope(cs)), rest)
  {
    var afterKeyword := " " + name + ("()" + blockText);
    var s := "fun" + afterKeyword;
    FunctionDeclParts(name, blockText, cs, rest);
    assert afterKeyword[0] == ' ';
    KeywordsAreIdentifiers();
    IdentTokenOn("fun", afterKeyword);
    ImportRejectsFun(s);
    DeclarationAround(s, Function(name, Scope(cs)), rest);
  }

  /** An input that is one declaration and nothing after it. */
  lemma SingleDeclarationAround(s: string, d: Expression)
    requires s != [] && !IsWhitespace(s[0])
    requires Declaration(s) == Parsed(d, [])
    ensures Parser(s) == Accepted([d])
  {
    NoDeclarations();
    DeclarationsCons(s, d, [], [], []);
    assert [d] + [] == [d];
    ParserAround(s, [d], []);
  }

  /** A whole input holding one function declaration whose block consumes
      the rest of it. */
  lemma SingleFunctionAccepted(name: string, blockText: string, cs: seq<Expression>)
    requires IsIdentifier(name) && Block(blockText) == Parsed(cs, [])
    ensures Parser("fun" + (" " + name + ("()" + blockText))) == Accepted([Function(name, Scope(cs))])
  {
    var s := "fun" + (" " + name + ("()" + blockText));
    FunctionDeclarationParts(name, blockText, cs, []);
    assert s[0] == 'f';
    SingleDeclarationAround(s, Function(name, Scope(cs)));
  }

  /** One function declaration with padding around the braces of its block
      is a whole program. */
  lemma PaddedFunctionAccepted(name: string, w1: string, w2: string, cs: seq<Expression>, w3: string)
    requires IsIdentifier(name) && AllCalls(cs) && cs != []
    requires AllWhitespace(w1) && AllWhitespace(w2) && AllWhitespace(w3)
    ensures Parser("fun" + (" " + name + ("()" + (w1 + ("{" + (w2 + (PrintExpressions(cs) + (w3 + "}"))))))))
         == Accepted([Function(name, Scope(cs))])
  {
    var blockText := w1 + ("{" + (w2 + (PrintExpressions(cs) + (w3 + ("}" + [])))));
    PaddedBlockOn(w1, w2, cs, w3, []);
    assert "}" + [] == "}";
    SingleFunctionAccepted(name, blockText, cs);
  }

  /** One function declaration with an empty block is a whole program. */
  lemma EmptyFunctionAccepted(name: string, w1: string, w2: string)
    requires IsIdentifier(name) && AllWhitespace(w1) && AllWhitespace(w2)
    ensures Parser("fun" + (" " + name + ("()" + (w1 + ("{" + (w2 + "}")))))) == Accepted([Function(name, Scope([]))])
  {
    var blockText := w1 + ("{" + (w2 + ("}" + [])));
    EmptyBlockOn(w1, w2, []);
    assert "}" + [] == "}";
    SingleFunctionAccepted(name, blockText, []);
  }

  /** A function header with anything but `()` after the name and its
      padding is rejected, and so is the whole program: `fun f(x) { }` and
      `fun f (x) { }` alike. */
  lemma ParametersRejected(name: string, after: string)
    requires IsIdentifier(name)
    requires after == [] || !IsIdentChar(after[0])
    requires var t := SkipWhitespace(after); |t| < 2 || t[0] != '(' || t[1] != ')'
    ensures Parser("fun" + (" " + name + after)) == Rejected
  {
    var s := "fun" + (" " + name + after);
    FunctionHeaderShape(name, after);
    KeywordsAreIdentifiers();
    IdentTokenOn("fun", " " + name + after);
    ImportRejectsFun(s);
    assert SkipWhitespace(s) == s;
    ParserRejectsAround(s);
  }

  // ------------------------------------------------------------ blank lines

  /** `attribute_access` skips padding, line breaks included, in front of
      its first identifier. */
  lemma AttributeAccessPadded(w: string, links: seq<Expression>, tail: string)
    requires AllWhitespace(w) && AllLinks(links) && links != []
    requires StartsWith(tail, '(')
    ensures AttributeAccess(w + (PrintLinks(links) + tail)) == Parsed(links, tail)
  {
    var more := PrintMoreLinks(links[1..]) + tail;
    LinksTail(links);
    PrintLinksCons(links, tail);
    PrintMoreLinksStart(links[1..], tail);
    Associative(w, links[0].name, more);
    PaddedIdentOn(w, links[0].name, more);
    assert SkipWhitespace(more) == more;
    MoreLinksOn(links[1..], tail);
    AttributeAccessCons(w + (PrintLinks(links) + tail), links[0].name, more, links[1..], tail);
  }

  /** A call whose chain is not empty may be preceded by padding. */
  lemma ApplyPaddedOn(w: string, c: Expression, r: string)
    requires AllWhitespace(w) && IsCall(c) && c.callee.links != []
    ensures Apply(w + (PrintCall(c) + r)) == Parsed(c, r)
  {
    var links := c.callee.links;
    var argsText := "(" + (PrintArguments(c.args) + (")" + r));
    PrintCallSplit(c, r);
    AttributeAccessPadded(w, links, argsText);
    ApplyArgumentsOn(c.args, r);
    ApplyAround(w + (PrintCall(c) + r), links, argsText, c.args, r);
  }

  /** Blank lines in front of a call are absorbed by the padding of its
      first identifier, so they may separate the calls of a block. */
  lemma BlankLinesAbsorbed(w: string, c: Expression, r: string)
    requires AllWhitespace(w) && IsCall(c) && c.callee.links != []
    ensures var more := MoreExpressions(r);
      MoreExpressions("\n" + (w + (PrintCall(c) + r))) == Parsed([c] + more.value, more.rest)
  {
    var afterBreak := w + (PrintCall(c) + r);
    LineBreakCharOn('\n', afterBreak);
    ApplyPaddedOn(w, c, r);
    MoreExpressionsCons("\n" + afterBreak, afterBreak, c, r, MoreExpressions(r).value,
                        MoreExpressions(r).rest);
  }

  /** A call with an empty chain starts with `(`, which is not padding: a
      blank line in front of it is not absorbed, and the separator loop
      gives the line break back. */
  lemma BlankLineBeforeEmptyChain(w: string, c: Expression, r: string)
    requires AllWhitespace(w) && w != [] && IsCall(c) && c.callee.links == []
    ensures var s := "\n" + (w + (PrintCall(c) + r));
      MoreExpressions(s) == Parsed([], s)
  {
    var afterBreak := w + (PrintCall(c) + r);
    var text := PrintCall(c) + r;
    LineBreakCharOn('\n', afterBreak);
    CallText(c, r);
    SkipWhitespaceOn(w, text);
    PrintCallStart(c);
    assert text[0] == '(';
    assert AttributeAccess(afterBreak) == Parsed([], afterBreak);
    assert Apply(afterBreak).NoParse?;
  }

  /** A line break followed by padding is skipped whole by the padding in
      front of `}`. */
  lemma GapSkip(w: string, next: string)
    requires AllWhitespace(w)
    requires next == [] || !IsWhitespace(next[0])
    ensures SkipWhitespace("\n" + (w + next)) == next
  {
    Associative("\n", w, next);
    assert IsWhitespace('\n');
    SkipWhitespaceOn("\n" + w, next);
  }

  /** A blank line before a call with an empty chain makes the block fail:
      the line break is given back, and the block then finds `(` where it
      needs `}`. */
  lemma BlankLineBlockFails(c1: Expression, w: string, c2: Expression, r: string)
    requires IsCall(c1) && IsCall(c2) && c2.callee.links == []
    requires AllWhitespace(w) && w != []
    ensures Block("{" + (PrintCall(c1) + ("\n" + (w + (PrintCall(c2) + ("}" + r)))))).NoParse?
  {
    var next := PrintCall(c2) + ("}" + r);
    var gap := "\n" + (w + next);
    var inner := PrintCall(c1) + gap;
    CallText(c1, gap);
    BraceOn('{', inner);
    ApplyOn(c1, gap);
    BlankLineBeforeEmptyChain(w, c2, "}" + r);
    assert [c1] + [] == [c1];
    ExpressionsCons(inner, c1, gap, [], gap);
    CallText(c2, "}" + r);
    GapSkip(w, next);
    BlockFailsAround("{" + inner, "{" + inner, inner, [c1], gap);
  }

  // ------------------------------------------------------------ string literals

  /** `apply_arguments` fails when an argument list stops before its `)`. */
  lemma ApplyArgumentsFailsAround(s: string, args: seq<Expression>, close: string)
    requires StartsWith(s, '(') && ArgumentList(s[1..]) == Parsed(args, close)
    requires !StartsWith(close, ')')
    ensures ApplyArguments(s).NoParse?
  {
  }

  /** The argument list loop stops where no comma follows. */
  lemma MoreArgumentsNone(s: string)
    requires !StartsWith(s, ',')
    ensures MoreArguments(s) == Parsed([], s)
  {
  }

  /** A literal with no padding in front of it; the padding after it is
      skipped. */
  lemma LiteralPadded(t: string, u: string)
    requires '"' !in t
    ensures PaddedString(Quote(t) + u) == Parsed(String(t), SkipWhitespace(u))
  {
    assert SkipWhitespace(Quote(t) + u) == Quote(t) + u;
    StringLiteralOn(t, u);
  }

  /** One literal, then something other than a comma. */
  lemma LiteralThenStop(t: string, u: string)
    requires '"' !in t
    requires !StartsWith(SkipWhitespace(u), ',')
    ensures ArgumentList(Quote(t) + u) == Parsed([String(t)], SkipWhitespace(u))
  {
    var v := SkipWhitespace(u);
    LiteralPadded(t, u);
    MoreArgumentsNone(v);
    ArgumentListCons(Quote(t) + u, String(t), v, [], v);
    assert [String(t)] + [] == [String(t)];
  }

  /** `f( )` is not a call: the padding of a literal is skipped only when a
      literal follows, so the space is given back and no `)` follows `(`. */
  lemma SpaceInEmptyArguments(w: string, r: string)
    requires AllWhitespace(w) && w != []
    ensures ApplyArguments("(" + (w + (")" + r))).NoParse?
  {
    var inner := w + (")" + r);
    var s := "(" + inner;
    PunctuationOn('(', inner);
    PunctuationOn(')', r);
    assert SkipWhitespace(")" + r) == ")" + r;
    SkipWhitespaceOn(w, ")" + r);
    assert inner[0] == w[0];
    assert ArgumentList(inner) == Parsed([], inner);
    ApplyArgumentsFailsAround(s, [], inner);
  }

  /** A literal ends at its second `"`, and there is no escape: in
      `f("a"b")` the argument is `"a"`, and the `b` that follows it is
      neither a separator nor the closing parenthesis, so the call fails. */
  lemma QuoteEndsArgument(t: string, u: string)
    requires '"' !in t
    requires var v := SkipWhitespace(u); v != [] && v[0] != ',' && v[0] != ')'
    ensures ApplyArguments("(" + (Quote(t) + u)).NoParse?
  {
    var s := "(" + (Quote(t) + u);
    LiteralThenStop(t, u);
    assert s[1..] == Quote(t) + u;
    ApplyArgumentsFailsAround(s, [String(t)], SkipWhitespace(u));
  }

  // ------------------------------------------------------------ whole input

  /** `parser()` rejects whatever `program` leaves unread. */
  lemma ParserLeftoverAround(s: string, ds: seq<Expression>, rest: string)
    requires Declarations(SkipWhitespace(s)) == Parsed(ds, rest)
    requires SkipWhitespace(rest) != []
    ensures Parser(s) == Rejected
  {
  }

  /** A printed program followed by anything that does not start a
      declaration is rejected as a whole: there is no partial success. */
  lemma TrailingInputRejected(ds: seq<Expression>, w: string, t: string)
    requires IsProgram(ds) && AllWhitespace(w)
    requires t != [] && !IsWhitespace(t[0]) && Declaration(t).NoParse?
    requires w != [] || !IsIdentChar(t[0])
    ensures Parser(PrintProgram(ds) + (w + t)) == Rejected
  {
    var r := w + t;
    var s := PrintProgram(ds) + r;
    SkipWhitespaceOn(w, t);
    assert SkipWhitespace(t) == t;
    if ds == [] {
      assert s == r;
      DeclarationsNone(t);
      ParserLeftoverAround(s, [], t);
    } else {
      assert r[0] == if w == [] then t[0] else w[0];
      CharClassRelations(r[0]);
      PrintProgramStart(ds, r);
      CharClassRelations(s[0]);
      assert SkipWhitespace(s) == s;
      DeclarationsOn(ds, r);
      ParserLeftoverAround(s, ds, t);
    }
  }
  /** A call after the declarations of a program, not only at its start,
      makes the whole input rejected. */
  lemma CallAfterProgramRejected(ds: seq<Expression>, w: string, c: Expression, r: string)
    requires IsProgram(ds) && IsCall(c) && AllWhitespace(w)
    requires w != [] || c.callee.links == []
    ensures Parser(PrintProgram(ds) + (w + (PrintCall(c) + r))) == Rejected
  {
    CallText(c, r);
    CallNotDeclaration(c, r);
    if c.callee.links == [] {
      assert (PrintCall(c) + r)[0] == '(';
    }
    TrailingInputRejected(ds, w, PrintCall(c) + r);
  }

}
