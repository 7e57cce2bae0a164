/** The `Expression` tree that the parser produces, and the shapes that a
    successful parse gives each level of it. */
module Ast {
  import opened Chars

  newtype Int32 = x: int | -0x8000_0000 <= x < 0x8000_0000

  /** One node of the syntax tree. `Number`, `Empty` and `Dot` exist in the
      type, but no grammar rule leaves them in its output. */
  datatype Expression =
    | Import(path: string)
    | Ident(name: string)
    | String(text: string)
    | Function(fname: string, body: Expression)
    | FunctionCall(callee: Expression, args: seq<Expression>)
    | Scope(exprs: seq<Expression>)
    | Chain(links: seq<Expression>)
    | Number(value: Int32)
    | Empty
    | Dot

  /** An element of an attribute chain: always an identifier, never a `Dot`. */
  predicate IsLink(e: Expression) {
    e.Ident? && IsIdentifier(e.name)
  }

  /** A call argument: a string literal, whose text cannot hold a `"`. */
  predicate IsArgument(e: Expression) {
    e.String? && '"' !in e.text
  }

  predicate AllLinks(links: seq<Expression>) {
    forall i :: 0 <= i < |links| ==> IsLink(links[i])
  }

  predicate AllArguments(args: seq<Expression>) {
    forall i :: 0 <= i < |args| ==> IsArgument(args[i])
  }

  /** A call: a chain of identifiers (possibly none) applied to string literals. */
  predicate IsCall(e: Expression) {
    e.FunctionCall? && e.callee.Chain? && AllLinks(e.callee.links) && AllArguments(e.args)
  }

  predicate AllCalls(cs: seq<Expression>) {
    forall i :: 0 <= i < |cs| ==> IsCall(cs[i])
  }

  /** `<namespace>/<entry>` with an identifier on each side of the slash. */
  predicate IsImportPath(p: string) {
    exists i :: 0 <= i < |p| && p[i] == '/' && IsIdentifier(p[..i]) && IsIdentifier(p[i + 1..])
  }

  /** A top-level declaration: an import, or a named function whose body is a
      `Scope` of calls. */
  predicate IsDeclaration(e: Expression) {
    || (e.Import? && IsImportPath(e.path))
    || (&& e.Function?
        && IsIdentifier(e.fname)
        && e.body.Scope?
        && AllCalls(e.body.exprs))
  }

  predicate IsProgram(ds: seq<Expression>) {
    forall i :: 0 <= i < |ds| ==> IsDeclaration(ds[i])
  }

  /** Each list shape is kept by putting one more item in front. */
  lemma LinksCons(e: Expression, more: seq<Expression>)
    requires IsLink(e) && AllLinks(more)
    ensures AllLinks([e] + more)
  {
    assert forall i :: 0 < i <= |more| ==> ([e] + more)[i] == more[i - 1];
  }

  lemma ArgumentsCons(e: Expression, more: seq<Expression>)
    requires IsArgument(e) && AllArguments(more)
    ensures AllArguments([e] + more)
  {
    assert forall i :: 0 < i <= |more| ==> ([e] + more)[i] == more[i - 1];
  }

  lemma CallsCons(e: Expression, more: seq<Expression>)
    requires IsCall(e) && AllCalls(more)
    ensures AllCalls([e] + more)
  {
    assert forall i :: 0 < i <= |more| ==> ([e] + more)[i] == more[i - 1];
  }

  lemma ProgramCons(e: Expression, more: seq<Expression>)
    requires IsDeclaration(e) && IsProgram(more)
    ensures IsProgram([e] + more)
  {
    assert forall i :: 0 < i <= |more| ==> ([e] + more)[i] == more[i - 1];
  }

  /** An identifier never contains a slash. */
  lemma IdentifierHasNoSlash(s: string)
    requires IsIdentifier(s)
    ensures '/' !in s
  {
    forall i | 0 <= i < |s| ensures s[i] != '/' {
      assert i == 0 || IsIdentChar(s[i]);
    }
  }

  /** An import path has exactly one slash, at the position the parser put it,
      so the namespace and entry names can be read back from it. */
  lemma {:induction false} ImportPathOneSlash(t: string, e: string)
    requires IsIdentifier(t) && IsIdentifier(e)
    ensures IsImportPath(t + "/" + e)
    ensures multiset(t + "/" + e)['/'] == 1
    ensures forall i :: 0 <= i < |t + "/" + e| && (t + "/" + e)[i] == '/' ==> i == |t|
  {
    var p := t + "/" + e;
    assert p[..|t|] == t && p[|t| + 1..] == e;
    IdentifierHasNoSlash(t);
    IdentifierHasNoSlash(e);
    assert multiset(p) == multiset(t) + multiset{'/'} + multiset(e);
  }
}
