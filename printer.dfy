/** A canonical source text for every tree the grammar can produce: the
    reference against which each rule is checked (each rule reads back what
    this module writes). Layout choices: no padding except one space after a
    keyword, `\n` between the calls of a block and between declarations. */
module Printer {
  import opened Ast

  function Quote(text: string): string {
    "\"" + text + "\""
  }

  /** `a.b.c` */
  function PrintLinks(links: seq<Expression>): string
    requires AllLinks(links)
  {
    if links == [] then "" else links[0].name + PrintMoreLinks(links[1..])
  }

  function PrintMoreLinks(links: seq<Expression>): string
    requires AllLinks(links)
  {
    if links == [] then "" else "." + links[0].name + PrintMoreLinks(links[1..])
  }

  /** `"x","y"` */
  function PrintArguments(args: seq<Expression>): string
    requires AllArguments(args)
  {
    if args == [] then "" else Quote(args[0].text) + PrintMoreArguments(args[1..])
  }

  function PrintMoreArguments(args: seq<Expression>): string
    requires AllArguments(args)
  {
    if args == [] then "" else "," + Quote(args[0].text) + PrintMoreArguments(args[1..])
  }

  /** `a.b("x","y")` */
  function PrintCall(c: Expression): string
    requires IsCall(c)
  {
    PrintLinks(c.callee.links) + "(" + PrintArguments(c.args) + ")"
  }

  /** The calls of a block, one per line. */
  function PrintExpressions(cs: seq<Expression>): string
    requires AllCalls(cs)
  {
    if cs == [] then "" else PrintCall(cs[0]) + PrintMoreExpressions(cs[1..])
  }

  function PrintMoreExpressions(cs: seq<Expression>): string
    requires AllCalls(cs)
  {
    if cs == [] then "" else "\n" + PrintCall(cs[0]) + PrintMoreExpressions(cs[1..])
  }

  function PrintBlock(cs: seq<Expression>): string
    requires AllCalls(cs)
  {
    "{" + PrintExpressions(cs) + "}"
  }

  /** `import a/b` or `fun f(){...}` */
  function PrintDeclaration(d: Expression): string
    requires IsDeclaration(d)
  {
    if d.Import? then "import " + d.path
    else "fun " + d.fname + "()" + PrintBlock(d.body.exprs)
  }

  /** The declarations of a program, one per line. */
  function PrintProgram(ds: seq<Expression>): string
    requires IsProgram(ds)
  {
    if ds == [] then "" else PrintDeclaration(ds[0]) + PrintMoreDeclarations(ds[1..])
  }

  function PrintMoreDeclarations(ds: seq<Expression>): string
    requires IsProgram(ds)
  {
    if ds == [] then "" else "\n" + PrintDeclaration(ds[0]) + PrintMoreDeclarations(ds[1..])
  }
}
