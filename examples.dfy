/** The grammar on concrete inputs: small sample programs, each accepted
    with its tree or rejected. Each example instantiates a general lemma;
    the `...Text` lemmas only spell out the concrete source text that
    instance stands for. */
module Examples {
  import opened Ast
  import opened Grammar
  import opened Printer
  import opened RoundTrip
  import opened Behaviour

  /** `console.log("hi")` */
  function ConsoleLog(): (c: Expression)
    ensures IsCall(c) && c.callee.links != []
  {
    FunctionCall(Chain([Ident("console"), Ident("log")]), [String("hi")])
  }

  lemma ImportPathText(p: string)
    requires p == "fs/read"
    ensures IsImportPath(p)
  {
    assert p[2] == '/' && p[..2] == "fs" && p[3..] == "read";
  }

  lemma ImportText(p: string)
    requires p == "fs/read"
    ensures IsProgram([Import(p)])
    ensures "" + PrintProgram([Import(p)]) + "" == "import fs/read"
  {
    ImportPathText(p);
    PrintProgramOne([Import(p)], "");
    assert PrintDeclaration(Import(p)) == "import " + p;
  }

  /** `import fs/read` is one import whose payload keeps the slash. */
  lemma ImportExample()
    ensures Parser("import fs/read") == Accepted([Import("fs/read")])
  {
    ImportText("fs/read");
    ParserRoundTrip([Import("fs/read")], "", "");
  }

  lemma ConsoleLogText()
    ensures PrintExpressions([ConsoleLog()]) == "console.log(\"hi\")"
  {
  }

  lemma MainText(body: string)
    requires body == "console.log(\"hi\")"
    ensures "fun" + (" " + "main" + ("()" + (" " + ("{" + (" " + (body + (" " + "}")))))))
         == "fun main() { console.log(\"hi\") }"
  {
  }

  /** A function whose block holds one call, with padding inside the braces. */
  lemma MainExample()
    ensures Parser("fun main() { console.log(\"hi\") }")
         == Accepted([Function("main", Scope([ConsoleLog()]))])
  {
    PaddedFunctionAccepted("main", " ", " ", [ConsoleLog()], " ");
    ConsoleLogText();
    MainText(PrintExpressions([ConsoleLog()]));
  }

  lemma EmptyFunctionText()
    ensures "fun" + (" " + "f" + ("()" + (" " + ("{" + (" " + "}"))))) == "fun f() { }"
  {
  }

  /** `fun f() { }` is a function with an empty scope. */
  lemma EmptyFunctionExample()
    ensures Parser("fun f() { }") == Accepted([Function("f", Scope([]))])
  {
    EmptyFunctionAccepted("f", " ", " ");
    EmptyFunctionText();
  }

  lemma ParameterText()
    ensures "fun" + (" " + "f" + "(x) { }") == "fun f(x) { }"
  {
  }

  /** `fun f(x) { }` is rejected: there are no parameters. */
  lemma ParameterExample()
    ensures Parser("fun f(x) { }") == Rejected
  {
    ParametersRejected("f", "(x) { }");
    ParameterText();
  }

  function ChainCall(): (c: Expression)
    ensures IsCall(c) && c.callee.links != [] && c.callee.links[0].name == "a"
  {
    FunctionCall(Chain([Ident("a"), Ident("b"), Ident("c")]), [String("x"), String("y")])
  }

  lemma ChainCallText()
    ensures "" + (PrintCall(ChainCall()) + "") == "a.b.c(\"x\",\"y\")"
  {
  }

  /** A bare call at top level is rejected. */
  lemma TopLevelCallExample()
    ensures Parser("a.b.c(\"x\",\"y\")") == Rejected
  {
    TopLevelCallRejected(ChainCall(), "", "");
    ChainCallText();
  }

  /** `a("x")` and `("y")`, the second with an empty chain. */
  function FirstCall(): (c: Expression)
    ensures IsCall(c) && c.callee.links != []
  {
    FunctionCall(Chain([Ident("a")]), [String("x")])
  }

  function EmptyChainCall(): (c: Expression)
    ensures IsCall(c) && c.callee.links == []
  {
    FunctionCall(Chain([]), [String("y")])
  }

  lemma CrLfCallsText(body: string)
    requires body == PrintCall(FirstCall()) + ("\r\n" + (PrintCall(EmptyChainCall()) + "}"))
    ensures body == "a(\"x\")\r\n(\"y\")}"
  {
  }

  /** `a("x")` CR LF `("y")` inside a block is two calls. */
  lemma CrLfExample()
    ensures Expressions("a(\"x\")\r\n(\"y\")}") == Parsed([FirstCall(), EmptyChainCall()], "}")
  {
    ExpressionsStop("}");
    LineBreakSeparatesCalls(FirstCall(), "\r\n", EmptyChainCall(), "}");
    CrLfCallsText(PrintCall(FirstCall()) + ("\r\n" + (PrintCall(EmptyChainCall()) + "}")));
  }

  lemma UnescapedQuoteText()
    ensures SkipWhitespace("b\")") == "b\")"
    ensures "(" + (Quote("a") + "b\")") == "(\"a\"b\")"
  {
  }

  /** `"a"b"` is not one literal: the argument list of `("a"b")` fails. */
  lemma UnescapedQuoteExample()
    ensures ApplyArguments("(\"a\"b\")").NoParse?
  {
    UnescapedQuoteText();
    QuoteEndsArgument("a", "b\")");
  }
}
