/** Each rule reads back exactly what the printer writes for it, followed by
    any input that cannot continue the construct: the value comes back
    unchanged, in source order, and the rest of the input is left alone
    (minus the trailing padding, for rules that are padded). */
module RoundTrip {
  import opened Chars
  import opened Ast
  import opened Grammar
  import opened Printer

  /** Concatenation regroups freely. */
  lemma Associative(a: string, b: string, c: string)
    ensures (a + b) + c == a + (b + c)
  {
  }

  // ---------------------------------------------------------------- lexical

  lemma {:induction false} SkipWhitespaceOn(w: string, r: string)
    requires AllWhitespace(w)
    requires r == [] || !IsWhitespace(r[0])
    ensures SkipWhitespace(w + r) == r
  {
    if w != [] {
      assert (w + r)[1..] == w[1..] + r;
      SkipWhitespaceOn(w[1..], r);
    }
  }

  lemma {:induction false} IdentRunOn(x: string, r: string)
    requires forall i :: 0 <= i < |x| ==> IsIdentChar(x[i])
    requires r == [] || !IsIdentChar(r[0])
    ensures IdentRun(x + r) == |x|
  {
    if x != [] {
      assert (x + r)[1..] == x[1..] + r;
      IdentRunOn(x[1..], r);
    }
  }

  /** `text::ident()` reads a whole identifier and stops at the first
      character that cannot continue it. */
  lemma IdentTokenOn(id: string, r: string)
    requires IsIdentifier(id)
    requires r == [] || !IsIdentChar(r[0])
    ensures IdentToken(id + r) == Parsed(id, r)
  {
    var s := id + r;
    assert s[1..] == id[1..] + r;
    IdentRunOn(id[1..], r);
    assert s[..|id|] == id && s[|id|..] == r;
  }

  /** An identifier with nothing in front of it. */
  lemma IdentOn(id: string, r: string)
    requires IsIdentifier(id)
    requires r == [] || !IsIdentChar(r[0])
    ensures PaddedIdent(id + r) == Parsed(id, SkipWhitespace(r))
  {
    CharClassRelations(id[0]);
    assert SkipWhitespace(id + r) == id + r;
    IdentTokenOn(id, r);
  }

  /** `ident` skips the whitespace in front of an identifier and after it. */
  lemma PaddedIdentOn(w: string, id: string, r: string)
    requires AllWhitespace(w) && IsIdentifier(id)
    requires r == [] || !IsIdentChar(r[0])
    ensures PaddedIdent(w + id + r) == Parsed(id, SkipWhitespace(r))
  {
    CharClassRelations(id[0]);
    Associative(w, id, r);
    SkipWhitespaceOn(w, id + r);
    IdentTokenOn(id, r);
  }

  lemma {:induction false} QuoteFreeRunOn(t: string, r: string)
    requires '"' !in t
    ensures QuoteFreeRun(t + "\"" + r) == |t|
  {
    if t != [] {
      assert (t + "\"" + r)[1..] == t[1..] + "\"" + r;
      QuoteFreeRunOn(t[1..], r);
    }
  }

  /** A literal ends at the first `"` after the opening one. */
  lemma StringLiteralOn(t: string, r: string)
    requires '"' !in t
    ensures StringLiteral(Quote(t) + r) == Parsed(String(t), r)
  {
    var s := Quote(t) + r;
    assert s[1..] == t + "\"" + r;
    QuoteFreeRunOn(t, r);
    assert s[1..|t| + 1] == t && s[|t| + 2..] == r;
  }

  /** `string.padded()` skips the whitespace in front of a literal and
      after it. */
  lemma PaddedStringOn(w: string, t: string, r: string)
    requires AllWhitespace(w) && '"' !in t
    ensures PaddedString(w + Quote(t) + r) == Parsed(String(t), SkipWhitespace(r))
  {
    Associative(w, Quote(t), r);
    SkipWhitespaceOn(w, Quote(t) + r);
    StringLiteralOn(t, r);
  }

  // ------------------------------------------------------------ expressions

  /** The `.ident` tail of a chain assembled from its first link. */
  lemma MoreLinksCons(s: string, id: string, tail: string, more: seq<Expression>, rest: string)
    requires StartsWith(s, '.') && PaddedIdent(s[1..]) == Parsed(id, tail)
    requires MoreLinks(tail) == Parsed(more, rest)
    ensures MoreLinks(s) == Parsed([Ident(id)] + more, rest)
  {
  }

  /** A chain assembled from its first identifier and the links after it. */
  lemma AttributeAccessCons(s: string, id: string, tail: string, more: seq<Expression>, rest: string)
    requires PaddedIdent(s) == Parsed(id, tail)
    requires MoreLinks(tail) == Parsed(more, rest)
    ensures AttributeAccess(s) == Parsed([Ident(id)] + more, rest)
  {
  }

  /** At the `(` of an argument list, a chain has no (further) links. */
  lemma LinksStop(r: string)
    requires StartsWith(r, '(')
    ensures MoreLinks(r) == Parsed([], r) && AttributeAccess(r) == Parsed([], r)
  {
    assert SkipWhitespace(r) == r;
  }

  /** An identifier followed by `.` or `(`. */
  lemma NameOn(name: string, tail: string)
    requires IsIdentifier(name)
    requires StartsWith(tail, '.') || StartsWith(tail, '(')
    ensures PaddedIdent(name + tail) == Parsed(name, tail)
  {
    CharClassRelations(name[0]);
    assert SkipWhitespace(name + tail) == name + tail;
    IdentTokenOn(name, tail);
    assert SkipWhitespace(tail) == tail;
  }

  /** A single punctuation character in front of the rest of the input. */
  lemma PunctuationOn(c: char, t: string)
    ensures StartsWith([c] + t, c) && ([c] + t)[1..] == t
  {
  }

  lemma PrintLinksNone(r: string)
    ensures PrintLinks([]) + r == r && PrintMoreLinks([]) + r == r
  {
    assert [] + r == r;
  }

  lemma PrintLinksCons(links: seq<Expression>, r: string)
    requires AllLinks(links) && links != []
    ensures PrintLinks(links) + r == links[0].name + (PrintMoreLinks(links[1..]) + r)
    ensures PrintMoreLinks(links) + r == "." + (links[0].name + (PrintMoreLinks(links[1..]) + r))
  {
    var name, more := links[0].name, PrintMoreLinks(links[1..]);
    assert PrintMoreLinks(links) == "." + name + more;
    Associative(name, more, r);
    Associative("." + name, more, r);
    Associative(".", name, more + r);
  }

  lemma PrintMoreLinksStart(links: seq<Expression>, r: string)
    requires AllLinks(links) && StartsWith(r, '(')
    ensures StartsWith(PrintMoreLinks(links) + r, '.') || StartsWith(PrintMoreLinks(links) + r, '(')
  {
    if links == [] {
      PrintLinksNone(r);
    } else {
      PrintLinksCons(links, r);
    }
  }

  lemma LinksTail(links: seq<Expression>)
    requires AllLinks(links) && links != []
    ensures IsIdentifier(links[0].name) && links[0] == Ident(links[0].name)
    ensures AllLinks(links[1..]) && links == [links[0]] + links[1..]
  {
    assert IsLink(links[0]);
    assert forall i :: 0 <= i < |links[1..]| ==> links[1..][i] == links[i + 1];
  }

  lemma {:induction false} MoreLinksOn(links: seq<Expression>, r: string)
    requires AllLinks(links)
    requires StartsWith(r, '(')
    ensures MoreLinks(PrintMoreLinks(links) + r) == Parsed(links, r)
  {
    if links == [] {
      PrintLinksNone(r);
      LinksStop(r);
    } else {
      var name := links[0].name;
      var tail := PrintMoreLinks(links[1..]) + r;
      PrintLinksCons(links, r);
      PrintMoreLinksStart(links[1..], r);
      LinksTail(links);
      NameOn(name, tail);
      PunctuationOn('.', name + tail);
      MoreLinksOn(links[1..], r);
      MoreLinksCons("." + (name + tail), name, tail, links[1..], r);
    }
  }

  /** An attribute chain reads back its identifiers, possibly none. */
  lemma AttributeAccessOn(links: seq<Expression>, r: string)
    requires AllLinks(links)
    requires StartsWith(r, '(')
    ensures AttributeAccess(PrintLinks(links) + r) == Parsed(links, r)
  {
    if links == [] {
      PrintLinksNone(r);
      LinksStop(r);
    } else {
      var name := links[0].name;
      var tail := PrintMoreLinks(links[1..]) + r;
      PrintLinksCons(links, r);
      PrintMoreLinksStart(links[1..], r);
      LinksTail(links);
      NameOn(name, tail);
      MoreLinksOn(links[1..], r);
      AttributeAccessCons(name + tail, name, tail, links[1..], r);
    }
  }

  /** The `,"text"` tail of an argument list assembled from its first item. */
  lemma MoreArgumentsCons(s: string, a: Expression, tail: string, more: seq<Expression>, rest: string)
    requires StartsWith(s, ',') && PaddedString(s[1..]) == Parsed(a, tail)
    requires MoreArguments(tail) == Parsed(more, rest)
    ensures MoreArguments(s) == Parsed([a] + more, rest)
  {
  }

  /** An argument list assembled from its first literal and the ones after it. */
  lemma ArgumentListCons(s: string, a: Expression, tail: string, more: seq<Expression>, rest: string)
    requires PaddedString(s) == Parsed(a, tail)
    requires MoreArguments(tail) == Parsed(more, rest)
    ensures ArgumentList(s) == Parsed([a] + more, rest)
  {
  }

  /** At the closing `)`, an argument list has no (further) items. */
  lemma ArgumentsStop(r: string)
    requires StartsWith(r, ')')
    ensures MoreArguments(r) == Parsed([], r) && ArgumentList(r) == Parsed([], r)
  {
    assert SkipWhitespace(r) == r;
  }

  /** A literal followed by `,` or `)`. */
  lemma LiteralOn(t: string, tail: string)
    requires '"' !in t
    requires StartsWith(tail, ',') || StartsWith(tail, ')')
    ensures PaddedString(Quote(t) + tail) == Parsed(String(t), tail)
  {
    assert SkipWhitespace(Quote(t) + tail) == Quote(t) + tail;
    StringLiteralOn(t, tail);
    assert SkipWhitespace(tail) == tail;
  }

  lemma PrintArgumentsNone(r: string)
    ensures PrintArguments([]) + r == r && PrintMoreArguments([]) + r == r
  {
    assert [] + r == r;
  }

  lemma PrintArgumentsCons(args: seq<Expression>, r: string)
    requires AllArguments(args) && args != []
    ensures PrintArguments(args) + r == Quote(args[0].text) + (PrintMoreArguments(args[1..]) + r)
    ensures PrintMoreArguments(args) + r == "," + (Quote(args[0].text) + (PrintMoreArguments(args[1..]) + r))
  {
    var q, more := Quote(args[0].text), PrintMoreArguments(args[1..]);
    assert PrintMoreArguments(args) == "," + q + more;
    Associative(q, more, r);
    Associative("," + q, more, r);
    Associative(",", q, more + r);
  }

  lemma PrintMoreArgumentsStart(args: seq<Expression>, r: string)
    requires AllArguments(args) && StartsWith(r, ')')
    ensures StartsWith(PrintMoreArguments(args) + r, ',') || StartsWith(PrintMoreArguments(args) + r, ')')
  {
    if args == [] {
      PrintArgumentsNone(r);
    } else {
      PrintArgumentsCons(args, r);
    }
  }

  lemma ArgumentsTail(args: seq<Expression>)
    requires AllArguments(args) && args != []
    ensures '"' !in args[0].text && args[0] == String(args[0].text)
    ensures AllArguments(args[1..]) && args == [args[0]] + args[1..]
  {
    assert IsArgument(args[0]);
    assert forall i :: 0 <= i < |args[1..]| ==> args[1..][i] == args[i + 1];
  }

  lemma {:induction false} MoreArgumentsOn(args: seq<Expression>, r: string)
    requires AllArguments(args)
    requires StartsWith(r, ')')
    ensures MoreArguments(PrintMoreArguments(args) + r) == Parsed(args, r)
  {
    if args == [] {
      PrintArgumentsNone(r);
      ArgumentsStop(r);
    } else {
      var t := args[0].text;
      var tail := PrintMoreArguments(args[1..]) + r;
      PrintArgumentsCons(args, r);
      PrintMoreArgumentsStart(args[1..], r);
      ArgumentsTail(args);
      LiteralOn(t, tail);
      PunctuationOn(',', Quote(t) + tail);
      MoreArgumentsOn(args[1..], r);
      MoreArgumentsCons("," + (Quote(t) + tail), String(t), tail, args[1..], r);
    }
  }

  lemma ArgumentListOn(args: seq<Expression>, r: string)
    requires AllArguments(args)
    requires StartsWith(r, ')')
    ensures ArgumentList(PrintArguments(args) + r) == Parsed(args, r)
  {
    if args == [] {
      PrintArgumentsNone(r);
      ArgumentsStop(r);
    } else {
      var t := args[0].text;
      var tail := PrintMoreArguments(args[1..]) + r;
      PrintArgumentsCons(args, r);
      PrintMoreArgumentsStart(args[1..], r);
      ArgumentsTail(args);
      LiteralOn(t, tail);
      MoreArgumentsOn(args[1..], r);
      ArgumentListCons(Quote(t) + tail, String(t), tail, args[1..], r);
    }
  }

  /** `apply_arguments` assembled from the results of its parts. */
  lemma ApplyArgumentsAround(s: string, args: seq<Expression>, close: string)
    requires StartsWith(s, '(') && ArgumentList(s[1..]) == Parsed(args, close)
    requires StartsWith(close, ')')
    ensures ApplyArguments(s) == Parsed(args, close[1..])
  {
  }

  /** An argument list reads back its literals, in order, and stops right
      after the closing parenthesis. */
  lemma ApplyArgumentsOn(args: seq<Expression>, r: string)
    requires AllArguments(args)
    ensures ApplyArguments("(" + (PrintArguments(args) + (")" + r))) == Parsed(args, r)
  {
    PunctuationOn('(', PrintArguments(args) + (")" + r));
    PunctuationOn(')', r);
    ArgumentListOn(args, ")" + r);
    ApplyArgumentsAround("(" + (PrintArguments(args) + (")" + r)), args, ")" + r);
  }

  /** `apply` assembled from its chain and its argument list. */
  lemma ApplyAround(s: string, links: seq<Expression>, argsText: string, args: seq<Expression>, rest: string)
    requires AttributeAccess(s) == Parsed(links, argsText)
    requires ApplyArguments(argsText) == Parsed(args, rest)
    ensures Apply(s) == Parsed(FunctionCall(Chain(links), args), rest)
  {
  }

  lemma PrintCallSplit(c: Expression, r: string)
    requires IsCall(c)
    ensures PrintCall(c) + r == PrintLinks(c.callee.links) + ("(" + (PrintArguments(c.args) + (")" + r)))
  {
    var links, args := PrintLinks(c.callee.links), PrintArguments(c.args);
    Associative(links + "(" + args, ")", r);
    Associative(links + "(", args, ")" + r);
    Associative(links, "(", args + (")" + r));
  }

  /** A call reads back its chain and its arguments, in order; nothing after
      the closing `)` is touched. */
  lemma ApplyOn(c: Expression, r: string)
    requires IsCall(c)
    ensures Apply(PrintCall(c) + r) == Parsed(c, r)
  {
    var argsText := "(" + (PrintArguments(c.args) + (")" + r));
    PrintCallSplit(c, r);
    PunctuationOn('(', PrintArguments(c.args) + (")" + r));
    AttributeAccessOn(c.callee.links, argsText);
    ApplyArgumentsOn(c.args, r);
    ApplyAround(PrintCall(c) + r, c.callee.links, argsText, c.args, r);
  }

  /** `newline()` reads "\r\n" as one line break, not as two. */
  lemma CrLfOn(t: string)
    ensures Newline("\r\n" + t) == Parsed((), t)
  {
    assert ("\r\n" + t)[2..] == t;
  }

  /** `newline()` on any single line-break character, except a `\r` that
      starts a "\r\n". */
  lemma LineBreakCharOn(c: char, t: string)
    requires IsNewlineChar(c) && !(c == '\r' && StartsWith(t, '\n'))
    ensures Newline([c] + t) == Parsed((), t)
  {
    assert ([c] + t)[1..] == t;
  }

  /** Conversely, whatever `newline()` consumes is "\r\n" or one
      line-break character, and never the `\r` of a "\r\n" alone. */
  lemma NewlineShape(s: string)
    ensures Newline(s).Parsed? ==>
      var t := Newline(s).rest;
      || s == "\r\n" + t
      || (IsNewlineChar(s[0]) && s == [s[0]] + t && !(s[0] == '\r' && StartsWith(t, '\n')))
  {
    if Newline(s).Parsed? {
      var t := Newline(s).rest;
      if |s| >= 2 && s[0] == '\r' && s[1] == '\n' {
        assert s == "\r\n" + t;
      } else {
        assert s == [s[0]] + t;
      }
    }
  }

  /** Where a block ends, no further call is read. */
  lemma ExpressionsStop(r: string)
    requires StartsWith(r, '}')
    ensures Apply(r).NoParse? && MoreExpressions(r) == Parsed([], r)
  {
    assert AttributeAccess(r) == Parsed([], r);
  }

  /** The expressions of a block assembled from the first call and the
      calls after it. */
  lemma ExpressionsCons(s: string, c: Expression, tail: string, more: seq<Expression>, rest: string)
    requires Apply(s) == Parsed(c, tail)
    requires MoreExpressions(tail) == Parsed(more, rest)
    ensures Expressions(s) == Parsed([c] + more, rest)
  {
  }

  /** One `newline call` step of a block. */
  lemma MoreExpressionsCons(s: string, afterBreak: string, c: Expression, tail: string,
                            more: seq<Expression>, rest: string)
    requires Newline(s) == Parsed((), afterBreak)
    requires Apply(afterBreak) == Parsed(c, tail)
    requires MoreExpressions(tail) == Parsed(more, rest)
    ensures MoreExpressions(s) == Parsed([c] + more, rest)
  {
  }

  lemma PrintExpressionsNone(r: string)
    ensures PrintExpressions([]) + r == r && PrintMoreExpressions([]) + r == r
  {
    assert [] + r == r;
  }

  lemma PrintExpressionsCons(cs: seq<Expression>, r: string)
    requires AllCalls(cs) && cs != []
    ensures PrintExpressions(cs) + r == PrintCall(cs[0]) + (PrintMoreExpressions(cs[1..]) + r)
    ensures PrintMoreExpressions(cs) + r == "\n" + (PrintCall(cs[0]) + (PrintMoreExpressions(cs[1..]) + r))
  {
    var call, more := PrintCall(cs[0]), PrintMoreExpressions(cs[1..]);
    assert PrintExpressions(cs) == call + more;
    assert PrintMoreExpressions(cs) == "\n" + call + more;
    Associative(call, more, r);
    Associative("\n" + call, more, r);
    Associative("\n", call, more + r);
  }

  lemma AllCallsTail(cs: seq<Expression>)
    requires AllCalls(cs) && cs != []
    ensures AllCalls(cs[1..]) && cs == [cs[0]] + cs[1..]
  {
    assert forall i :: 0 <= i < |cs[1..]| ==> cs[1..][i] == cs[i + 1];
  }

  /** The calls of a block after the first, each behind its line break,
      read back up to a point where the separator loop stops. */
  lemma {:induction false} MoreExpressionsOn(cs: seq<Expression>, r: string)
    requires AllCalls(cs)
    requires MoreExpressions(r) == Parsed([], r)
    ensures MoreExpressions(PrintMoreExpressions(cs) + r) == Parsed(cs, r)
  {
    if cs == [] {
      PrintExpressionsNone(r);
    } else {
      var tail := PrintMoreExpressions(cs[1..]) + r;
      var afterBreak := PrintCall(cs[0]) + tail;
      PrintExpressionsCons(cs, r);
      LineBreakCharOn('\n', afterBreak);
      ApplyOn(cs[0], tail);
      AllCallsTail(cs);
      MoreExpressionsOn(cs[1..], r);
      MoreExpressionsCons("\n" + afterBreak, afterBreak, cs[0], tail, cs[1..], r);
    }
  }

  /** The calls of a block read back up to a point where no further call
      can be read. */
  lemma ExpressionsOn(cs: seq<Expression>, r: string)
    requires AllCalls(cs)
    requires Apply(r).NoParse? && MoreExpressions(r) == Parsed([], r)
    ensures Expressions(PrintExpressions(cs) + r) == Parsed(cs, r)
  {
    if cs == [] {
      PrintExpressionsNone(r);
    } else {
      var tail := PrintMoreExpressions(cs[1..]) + r;
      PrintExpressionsCons(cs, r);
      ApplyOn(cs[0], tail);
      AllCallsTail(cs);
      MoreExpressionsOn(cs[1..], r);
      ExpressionsCons(PrintCall(cs[0]) + tail, cs[0], tail, cs[1..], r);
    }
  }

  /** The first character of a printed call can neither be skipped as
      padding nor close a block. */
  lemma PrintCallStart(c: Expression)
    requires IsCall(c)
    ensures |PrintCall(c)| > 0
    ensures IsIdentStart(PrintCall(c)[0]) || PrintCall(c)[0] == '('
  {
    if c.callee.links != [] {
      var links := c.callee.links;
      assert PrintCall(c) == links[0].name + (PrintMoreLinks(links[1..]) + "(" + PrintArguments(c.args) + ")");
    }
  }

  /** `block` assembled from the results of its parts. */
  lemma BlockAround(s: string, open: string, inner: string, cs: seq<Expression>, bodyRest: string,
                    close: string, rest: string)
    requires SkipWhitespace(s) == open && StartsWith(open, '{')
    requires SkipWhitespace(open[1..]) == inner
    requires Expressions(inner) == Parsed(cs, bodyRest)
    requires SkipWhitespace(bodyRest) == close && StartsWith(close, '}')
    requires SkipWhitespace(close[1..]) == rest
    ensures Block(s) == Parsed(cs, rest)
  {
  }

  /** A brace followed by something that is not padding. */
  lemma BraceOn(brace: char, t: string)
    requires brace == '{' || brace == '}'
    ensures SkipWhitespace([brace] + t) == [brace] + t
    ensures StartsWith([brace] + t, brace) && ([brace] + t)[1..] == t
  {
  }

  /** The printed block split after its opening brace; what follows the
      brace is a call or the closing brace, never padding. */
  lemma PrintBlockSplit(cs: seq<Expression>, r: string)
    requires AllCalls(cs)
    ensures PrintBlock(cs) + r == "{" + (PrintExpressions(cs) + ("}" + r))
    ensures var inner := PrintExpressions(cs) + ("}" + r); inner != [] && !IsWhitespace(inner[0])
  {
    Associative("{" + PrintExpressions(cs), "}", r);
    Associative("{", PrintExpressions(cs), "}" + r);
    var inner := PrintExpressions(cs) + ("}" + r);
    if cs != [] {
      PrintCallStart(cs[0]);
      PrintExpressionsCons(cs, "}" + r);
      assert inner[0] == PrintCall(cs[0])[0];
      CharClassRelations(inner[0]);
    } else {
      PrintExpressionsNone("}" + r);
    }
  }

  /** A block reads back its calls; `{}` gives no calls. */
  lemma BlockOn(cs: seq<Expression>, r: string)
    requires AllCalls(cs)
    ensures Block(PrintBlock(cs) + r) == Parsed(cs, SkipWhitespace(r))
  {
    var inner := PrintExpressions(cs) + ("}" + r);
    PrintBlockSplit(cs, r);
    BraceOn('{', inner);
    SkipWhitespaceOn([], inner);
    BraceOn('}', r);
    ExpressionsStop("}" + r);
    ExpressionsOn(cs, "}" + r);
    BlockAround("{" + inner, "{" + inner, inner, cs, "}" + r, "}" + r, SkipWhitespace(r));
  }

  // ----------------------------------------------------------- declarations

  /** Both keywords are identifiers, so `text::keyword` can match them. */
  lemma KeywordsAreIdentifiers()
    ensures IsIdentifier("import") && IsIdentifier("fun")
  {
    var kw := "import";
    assert kw[0] == 'i' && kw[1] == 'm' && kw[2] == 'p' && kw[3] == 'o' && kw[4] == 'r' && kw[5] == 't';
  }

  lemma KeywordOn(kw: string, r: string)
    requires IsIdentifier(kw)
    requires r == [] || !IsIdentChar(r[0])
    ensures Keyword(kw, kw + r) == Parsed((), r)
  {
    IdentTokenOn(kw, r);
  }

  /** `import` assembled from the results of its four parts. */
  lemma ImportDeclAround(s: string, afterKeyword: string, namespace: string, afterNamespace: string,
                         entry: string, rest: string)
    requires Keyword("import", s) == Parsed((), afterKeyword)
    requires PaddedIdent(afterKeyword) == Parsed(namespace, afterNamespace)
    requires StartsWith(afterNamespace, '/')
    requires PaddedIdent(afterNamespace[1..]) == Parsed(entry, rest)
    ensures ImportDecl(s) == Parsed(Import(namespace + "/" + entry), rest)
  {
  }

  /** A keyword, one space and an identifier, up to the punctuation that
      follows the identifier. */
  lemma KeywordThenName(kw: string, name: string, after: string)
    requires IsIdentifier(kw) && IsIdentifier(name)
    requires after != [] && !IsWhitespace(after[0]) && !IsIdentChar(after[0])
    ensures Keyword(kw, kw + (" " + name + after)) == Parsed((), " " + name + after)
    ensures PaddedIdent(" " + name + after) == Parsed(name, after)
  {
    assert IsWhitespace(' ');
    KeywordOn(kw, " " + name + after);
    PaddedIdentOn(" ", name, after);
  }

  /** The `/` of an import path and the entry name after it. */
  lemma SlashThenName(entry: string, r: string)
    requires IsIdentifier(entry)
    requires r == [] || !IsIdentChar(r[0])
    ensures StartsWith("/" + (entry + r), '/')
    ensures PaddedIdent(("/" + (entry + r))[1..]) == Parsed(entry, SkipWhitespace(r))
  {
    PunctuationOn('/', entry + r);
    IdentOn(entry, r);
  }

  /** `import` read from its namespace and entry. */
  lemma ImportDeclParts(namespace: string, entry: string, r: string)
    requires IsIdentifier(namespace) && IsIdentifier(entry)
    requires r == [] || !IsIdentChar(r[0])
    ensures ImportDecl("import" + (" " + namespace + ("/" + (entry + r))))
         == Parsed(Import(namespace + "/" + entry), SkipWhitespace(r))
  {
    var afterNamespace := "/" + (entry + r);
    var afterKeyword := " " + namespace + afterNamespace;
    KeywordsAreIdentifiers();
    KeywordThenName("import", namespace, afterNamespace);
    SlashThenName(entry, r);
    ImportDeclAround("import" + afterKeyword, afterKeyword, namespace, afterNamespace,
                     entry, SkipWhitespace(r));
  }

  /** The printed form of an import whose path has been split at its slash. */
  lemma PrintImportSplit(d: Expression, namespace: string, entry: string, r: string)
    requires d.Import? && IsImportPath(d.path) && d.path == namespace + "/" + entry
    ensures PrintDeclaration(d) + r == "import" + (" " + namespace + ("/" + (entry + r)))
  {
    Associative(namespace + "/", entry, r);
    Associative(namespace, "/", entry + r);
    Associative(" ", namespace, "/" + (entry + r));
    Associative("import", " ", namespace + ("/" + (entry + r)));
    Associative("import ", namespace + "/" + entry, r);
  }

  /** An import path split at its slash. */
  lemma ImportPathParts(p: string) returns (namespace: string, entry: string)
    requires IsImportPath(p)
    ensures IsIdentifier(namespace) && IsIdentifier(entry) && p == namespace + "/" + entry
  {
    var i :| 0 <= i < |p| && p[i] == '/' && IsIdentifier(p[..i]) && IsIdentifier(p[i + 1..]);
    namespace, entry := p[..i], p[i + 1..];
    assert p == namespace + "/" + entry;
  }

  lemma ImportDeclOn(d: Expression, r: string)
    requires d.Import? && IsImportPath(d.path)
    requires r == [] || !IsIdentChar(r[0])
    ensures ImportDecl(PrintDeclaration(d) + r) == Parsed(d, SkipWhitespace(r))
  {
    var namespace, entry := ImportPathParts(d.path);
    PrintImportSplit(d, namespace, entry, r);
    ImportDeclParts(namespace, entry, r);
  }

  /** `function` assembled from the results of its parts. */
  lemma FunctionDeclAround(s: string, afterKeyword: string, name: string, afterName: string,
                           cs: seq<Expression>, rest: string)
    requires Keyword("fun", s) == Parsed((), afterKeyword)
    requires PaddedIdent(afterKeyword) == Parsed(name, afterName)
    requires StartsWith(afterName, '(') && StartsWith(afterName[1..], ')')
    requires Block(afterName[2..]) == Parsed(cs, rest)
    ensures FunctionDecl(s) == Parsed(Function(name, Scope(cs)), rest)
  {
  }

  /** The empty parameter list `()` in front of a block. */
  lemma NoParameters(blockText: string)
    ensures StartsWith("()" + blockText, '(') && StartsWith(("()" + blockText)[1..], ')')
    ensures ("()" + blockText)[2..] == blockText
  {
  }

  /** `function` read from its name and a block that has been read. */
  lemma FunctionDeclParts(name: string, blockText: string, cs: seq<Expression>, rest: string)
    requires IsIdentifier(name)
    requires Block(blockText) == Parsed(cs, rest)
    ensures FunctionDecl("fun" + (" " + name + ("()" + blockText))) == Parsed(Function(name, Scope(cs)), rest)
  {
    var afterName := "()" + blockText;
    var afterKeyword := " " + name + afterName;
    KeywordsAreIdentifiers();
    KeywordThenName("fun", name, afterName);
    NoParameters(blockText);
    FunctionDeclAround("fun" + afterKeyword, afterKeyword, name, afterName, cs, rest);
  }

  /** The printed form of a function declaration, split after its keyword. */
  lemma PrintFunctionSplit(d: Expression, r: string)
    requires d.Function? && IsDeclaration(d)
    ensures PrintDeclaration(d) + r == "fun" + (" " + d.fname + ("()" + (PrintBlock(d.body.exprs) + r)))
  {
    var name, block := d.fname, PrintBlock(d.body.exprs);
    Associative("fun " + name + "()", block, r);
    Associative("fun " + name, "()", block + r);
    Associative("fun", " " + name, "()" + (block + r));
    Associative("fun", " ", name);
  }

  lemma FunctionDeclOn(d: Expression, r: string)
    requires d.Function? && IsDeclaration(d)
    ensures FunctionDecl(PrintDeclaration(d) + r) == Parsed(d, SkipWhitespace(r))
  {
    var blockText := PrintBlock(d.body.exprs) + r;
    PrintFunctionSplit(d, r);
    BlockOn(d.body.exprs, r);
    FunctionDeclParts(d.fname, blockText, d.body.exprs, SkipWhitespace(r));
  }

  /** The keyword `fun` is not the keyword `import`. */
  lemma ImportRejectsFun(s: string)
    requires IdentToken(s).Parsed? && IdentToken(s).value == "fun"
    ensures ImportDecl(s).NoParse?
  {
  }

  /** `import.or(function.or(import))` when `import` fails. */
  lemma DeclarationAround(s: string, v: Expression, rest: string)
    requires ImportDecl(s).NoParse? && FunctionDecl(s) == Parsed(v, rest)
    ensures Declaration(s) == Parsed(v, rest)
  {
  }

  /** A function declaration is not taken for an import. */
  lemma FunctionNotImport(d: Expression, r: string)
    requires d.Function? && IsDeclaration(d)
    ensures ImportDecl(PrintDeclaration(d) + r).NoParse?
  {
    var afterKeyword := " " + d.fname + ("()" + (PrintBlock(d.body.exprs) + r));
    PrintFunctionSplit(d, r);
    assert afterKeyword[0] == ' ';
    KeywordsAreIdentifiers();
    IdentTokenOn("fun", afterKeyword);
    ImportRejectsFun(PrintDeclaration(d) + r);
  }

  /** `import` is tried first and fails on a `fun` declaration; the second
      try of `import` after `function` never matters. */
  lemma DeclarationOn(d: Expression, r: string)
    requires IsDeclaration(d)
    requires r == [] || !IsIdentChar(r[0])
    ensures Declaration(PrintDeclaration(d) + r) == Parsed(d, SkipWhitespace(r))
  {
    if d.Import? {
      ImportDeclOn(d, r);
    } else {
      FunctionNotImport(d, r);
      FunctionDeclOn(d, r);
      DeclarationAround(PrintDeclaration(d) + r, d, SkipWhitespace(r));
    }
  }

  lemma PrintDeclarationStart(d: Expression)
    requires IsDeclaration(d)
    ensures |PrintDeclaration(d)| > 0 && IsIdentStart(PrintDeclaration(d)[0])
  {
  }

  /** A printed program, with anything after it, starts with a keyword. */
  lemma PrintProgramStart(ds: seq<Expression>, r: string)
    requires IsProgram(ds) && ds != []
    ensures var text := PrintProgram(ds) + r; text != [] && IsIdentStart(text[0])
  {
    PrintDeclarationStart(ds[0]);
    assert (PrintProgram(ds) + r)[0] == PrintDeclaration(ds[0])[0];
  }

  /** The declarations after the first are each preceded by a line break. */
  lemma PrintMoreDeclarationsBreak(ds: seq<Expression>)
    requires IsProgram(ds) && ds != []
    ensures PrintMoreDeclarations(ds) == "\n" + PrintProgram(ds)
  {
    Associative("\n", PrintDeclaration(ds[0]), PrintMoreDeclarations(ds[1..]));
  }

  /** Nothing is declared in an empty input. */
  lemma NoDeclarations()
    ensures Declaration([]).NoParse? && Declarations([]) == Parsed([], [])
  {
  }

  /** `.repeated()` assembled from its first item and the items after it. */
  lemma DeclarationsCons(s: string, d: Expression, next: string, more: seq<Expression>, rest: string)
    requires Declaration(s) == Parsed(d, next)
    requires Declarations(next) == Parsed(more, rest)
    ensures Declarations(s) == Parsed([d] + more, rest)
  {
  }

  /** The printed program split after its first declaration. */
  lemma PrintProgramCons(ds: seq<Expression>, r: string)
    requires IsProgram(ds) && |ds| >= 2
    ensures PrintProgram(ds) + r == PrintDeclaration(ds[0]) + ("\n" + (PrintProgram(ds[1..]) + r))
    ensures var next := PrintProgram(ds[1..]) + r; next != [] && IsIdentStart(next[0])
  {
    ProgramTail(ds);
    var first, next := PrintDeclaration(ds[0]), PrintProgram(ds[1..]);
    PrintMoreDeclarationsBreak(ds[1..]);
    assert PrintProgram(ds) == first + ("\n" + next);
    Associative(first, "\n" + next, r);
    Associative("\n", next, r);
    PrintProgramStart(ds[1..], r);
  }

  lemma PrintProgramOne(ds: seq<Expression>, r: string)
    requires IsProgram(ds) && |ds| == 1
    ensures PrintProgram(ds) + r == PrintDeclaration(ds[0]) + r
  {
    assert PrintMoreDeclarations(ds[1..]) == [];
    assert PrintProgram(ds) == PrintDeclaration(ds[0]) + [];
  }

  /** A declaration, a line break, and the start of the next declaration. */
  lemma DeclarationThenBreak(d: Expression, next: string)
    requires IsDeclaration(d)
    requires next != [] && IsIdentStart(next[0])
    ensures Declaration(PrintDeclaration(d) + ("\n" + next)) == Parsed(d, next)
  {
    CharClassRelations(next[0]);
    SkipWhitespaceOn("\n", next);
    DeclarationOn(d, "\n" + next);
  }

  /** `.repeated()` stops, consuming nothing, where no declaration starts. */
  lemma DeclarationsNone(s: string)
    requires Declaration(s).NoParse?
    ensures Declarations(s) == Parsed([], s)
  {
  }

  /** The last declaration of a program, followed by text where no
      declaration starts. */
  lemma DeclarationsLast(ds: seq<Expression>, r: string)
    requires IsProgram(ds) && |ds| == 1
    requires r == [] || !IsIdentChar(r[0])
    requires Declaration(SkipWhitespace(r)).NoParse?
    ensures Declarations(PrintProgram(ds) + r) == Parsed(ds, SkipWhitespace(r))
  {
    PrintProgramOne(ds, r);
    DeclarationOn(ds[0], r);
    DeclarationsNone(SkipWhitespace(r));
    assert ds == [ds[0]] + [] by {
      assert [ds[0]] + [] == [ds[0]];
    }
    DeclarationsCons(PrintProgram(ds) + r, ds[0], SkipWhitespace(r), [], SkipWhitespace(r));
  }

  /** A declaration followed by a line break and the rest of the program. */
  lemma DeclarationsNext(ds: seq<Expression>, r: string)
    requires IsProgram(ds) && |ds| >= 2
    ensures var next := Declarations(PrintProgram(ds[1..]) + r);
      Declarations(PrintProgram(ds) + r) == Parsed([ds[0]] + next.value, next.rest)
  {
    var next := PrintProgram(ds[1..]) + r;
    PrintProgramCons(ds, r);
    DeclarationThenBreak(ds[0], next);
    DeclarationsCons(PrintProgram(ds) + r, ds[0], next, Declarations(next).value, Declarations(next).rest);
  }

  lemma ProgramTail(ds: seq<Expression>)
    requires IsProgram(ds) && ds != []
    ensures IsProgram(ds[1..]) && ds == [ds[0]] + ds[1..]
  {
    assert forall i :: 0 <= i < |ds[1..]| ==> ds[1..][i] == ds[i + 1];
  }

  /** The declarations of a printed program are read back in order, up to
      the first place after it where no declaration starts. */
  lemma {:induction false} DeclarationsOn(ds: seq<Expression>, r: string)
    requires IsProgram(ds) && ds != []
    requires r == [] || !IsIdentChar(r[0])
    requires Declaration(SkipWhitespace(r)).NoParse?
    ensures Declarations(PrintProgram(ds) + r) == Parsed(ds, SkipWhitespace(r))
  {
    if |ds| == 1 {
      DeclarationsLast(ds, r);
    } else {
      ProgramTail(ds);
      DeclarationsOn(ds[1..], r);
      DeclarationsNext(ds, r);
    }
  }

  /** `parser()` accepts once the declarations have been read up to trailing
      whitespace. */
  lemma ParserAround(s: string, ds: seq<Expression>, r: string)
    requires Declarations(SkipWhitespace(s)) == Parsed(ds, r)
    requires SkipWhitespace(r) == []
    ensures Parser(s) == Accepted(ds)
  {
  }

  /** An empty program: only whitespace, which `program` skips. */
  lemma EmptyProgramOn(before: string, after: string)
    requires AllWhitespace(before) && AllWhitespace(after)
    ensures SkipWhitespace(before + PrintProgram([]) + after) == []
  {
    assert before + PrintProgram([]) + after == before + after + [];
    assert AllWhitespace(before + after);
    SkipWhitespaceOn(before + after, []);
  }

  /** Leading whitespace in front of a printed program is skipped. */
  lemma LeadingWhitespaceOn(ds: seq<Expression>, before: string, after: string)
    requires IsProgram(ds) && ds != []
    requires AllWhitespace(before)
    ensures SkipWhitespace(before + PrintProgram(ds) + after) == PrintProgram(ds) + after
  {
    var text := PrintProgram(ds) + after;
    PrintProgramStart(ds, after);
    CharClassRelations(text[0]);
    Associative(before, PrintProgram(ds), after);
    SkipWhitespaceOn(before, text);
  }

  /** The round trip of the whole grammar: printing a program and parsing the
      text back, with any whitespace around it, gives the same declarations
      in the same order. */
  lemma ParserRoundTrip(ds: seq<Expression>, before: string, after: string)
    requires IsProgram(ds)
    requires AllWhitespace(before) && AllWhitespace(after)
    ensures Parser(before + PrintProgram(ds) + after) == Accepted(ds)
  {
    var s := before + PrintProgram(ds) + after;
    if ds == [] {
      EmptyProgramOn(before, after);
      NoDeclarations();
    } else {
      LeadingWhitespaceOn(ds, before, after);
      if after != [] {
        CharClassRelations(after[0]);
      }
      SkipWhitespaceOn(after, []);
      assert after + [] == after;
      NoDeclarations();
      DeclarationsOn(ds, after);
    }
    ParserAround(s, ds, []);
  }
}
