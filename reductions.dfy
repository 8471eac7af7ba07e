/** Reduction of graph 3-colouring to propositional satisfiability. A graph
    has the vertices `1..n` and a collection of edges between them; the
    reduction produces a formula over variables `x{v}_{c}` ("vertex `v` has
    colour `c`") that is satisfiable exactly when the graph is 3-colourable. */
module Reductions {
  import opened Syntax
  import opened Semantics

  /** A graph: a vertex count and its edges, in the order they are visited. */
  datatype Graph = Graph(vertexCount: int, edges: seq<(int, int)>)

  /** The number of vertices `1..n` there are: none when `n` is not
      positive. */
  function VertexTotal(g: Graph): nat
  {
    if g.vertexCount < 0 then 0 else g.vertexCount
  }

  // ---------------------------------------------------------------------
  // Validators

  /** Both endpoints of `edge` are vertices of `g` and they differ. */
  predicate EdgeWellFormed(g: Graph, edge: (int, int))
  {
    && 1 <= edge.0 <= g.vertexCount
    && 1 <= edge.1 <= g.vertexCount
    && edge.0 != edge.1
  }

  /** Every edge joins two distinct vertices of the graph. */
  predicate WellFormed(g: Graph)
  {
    forall i :: 0 <= i < |g.edges| ==> EdgeWellFormed(g, g.edges[i])
  }

  /** is_graph: checks each edge's endpoints, then that it is not a loop. */
  method IsGraph(g: Graph) returns (b: bool)
    ensures b <==> WellFormed(g)
  {
    var n := g.vertexCount;
    for i := 0 to |g.edges|
      invariant forall j :: 0 <= j < i ==> EdgeWellFormed(g, g.edges[j])
    {
      var edge := g.edges[i];
      var endpoints := [edge.0, edge.1];
      for k := 0 to 2
        invariant forall j :: 0 <= j < k ==> 1 <= endpoints[j] <= n
      {
        if !(1 <= endpoints[k] <= n) {
          return false;
        }
      }
      assert 1 <= endpoints[0] <= n && 1 <= endpoints[1] <= n;
      if edge.0 == edge.1 {
        return false;
      }
    }
    return true;
  }

  /** Every vertex has one of the colours 1, 2, 3 and no edge joins two
      vertices of the same colour. */
  predicate ValidColoring(g: Graph, coloring: map<int, int>)
  {
    && (forall v :: 1 <= v <= g.vertexCount ==> v in coloring && 1 <= coloring[v] <= 3)
    && (forall i :: 0 <= i < |g.edges| ==>
          && g.edges[i].0 in coloring && g.edges[i].1 in coloring
          && coloring[g.edges[i].0] != coloring[g.edges[i].1])
  }

  ghost predicate ThreeColorable(g: Graph)
  {
    exists coloring: map<int, int> :: ValidColoring(g, coloring)
  }

  /** is_valid_3coloring: checks the colour of each vertex, then each edge. */
  method IsValid3Coloring(g: Graph, coloring: map<int, int>) returns (b: bool)
    requires WellFormed(g)
    ensures b <==> ValidColoring(g, coloring)
  {
    var n := g.vertexCount;
    var vertex := 1;
    while vertex <= n
      invariant 1 <= vertex <= VertexTotal(g) + 1
      invariant forall v :: 1 <= v < vertex ==> v in coloring && 1 <= coloring[v] <= 3
    {
      if vertex !in coloring || !(1 <= coloring[vertex] <= 3) {
        return false;
      }
      vertex := vertex + 1;
    }
    for i := 0 to |g.edges|
      invariant forall j :: 0 <= j < i ==> coloring[g.edges[j].0] != coloring[g.edges[j].1]
    {
      assert EdgeWellFormed(g, g.edges[i]);
      var edge := g.edges[i];
      if coloring[edge.0] == coloring[edge.1] {
        return false;
      }
    }
    return true;
  }

  // ---------------------------------------------------------------------
  // Variable names

  function DigitChar(d: nat): char
    requires d < 10
  {
    (48 + d) as char
  }

  /** The decimal numeral of `n`. */
  function Decimal(n: nat): (s: string)
    ensures |s| >= 1
  {
    if n < 10 then [DigitChar(n)] else Decimal(n / 10) + [DigitChar(n % 10)]
  }

  /** The decimal numeral of `i`, with a leading `-` when negative. */
  function IntDecimal(i: int): string
  {
    if i < 0 then "-" + Decimal(-i) else Decimal(i)
  }

  /** The variable `x{v}_{c}`: vertex `v` has colour `c`. */
  function VarName(v: int, c: int): string
  {
    "x" + IntDecimal(v) + "_" + IntDecimal(c)
  }

  function ColorVar(v: int, c: int): Formula
  {
    Var(VarName(v, c))
  }

  /** The position of the first `ch` in `s`, or `|s|` when there is none. */
  function IndexOf(s: string, ch: char): nat
  {
    if |s| == 0 then 0 else if s[0] == ch then 0 else 1 + IndexOf(s[1..], ch)
  }

  lemma {:induction false} IndexOfAfter(a: string, b: string, ch: char)
    requires forall k :: 0 <= k < |a| ==> a[k] != ch
    ensures IndexOf(a + [ch] + b, ch) == |a|
  {
    if |a| > 0 {
      assert (a + [ch] + b)[1..] == a[1..] + [ch] + b;
      IndexOfAfter(a[1..], b, ch);
    }
  }

  lemma {:induction false} DecimalDigits(n: nat)
    ensures n >= 10 ==> |Decimal(n)| >= 2
    ensures forall k :: 0 <= k < |Decimal(n)| ==> '0' <= Decimal(n)[k] <= '9'
  {
    if n >= 10 {
      DecimalDigits(n / 10);
    }
  }

  lemma IntDecimalNoUnderscore(i: int)
    ensures forall k :: 0 <= k < |IntDecimal(i)| ==> IntDecimal(i)[k] != '_'
  {
    if i < 0 {
      DecimalDigits(-i);
    } else {
      DecimalDigits(i);
    }
  }

  lemma {:induction false} DecimalInjective(a: nat, b: nat)
    requires Decimal(a) == Decimal(b)
    ensures a == b
  {
    DecimalDigits(a);
    DecimalDigits(b);
    if a >= 10 && b >= 10 {
      var sa, sb := Decimal(a), Decimal(b);
      assert sa[..|sa| - 1] == Decimal(a / 10);
      assert sb[..|sb| - 1] == Decimal(b / 10);
      DecimalInjective(a / 10, b / 10);
      assert DigitChar(a % 10) == sa[|sa| - 1] == sb[|sb| - 1] == DigitChar(b % 10);
    } else if a < 10 && b < 10 {
      assert DigitChar(a) == Decimal(a)[0] == Decimal(b)[0] == DigitChar(b);
    }
  }

  lemma IntDecimalInjective(a: int, b: int)
    requires IntDecimal(a) == IntDecimal(b)
    ensures a == b
  {
    IntDecimalSign(a);
    IntDecimalSign(b);
    if a < 0 && b < 0 {
      assert IntDecimal(a)[1..] == Decimal(-a);
      assert IntDecimal(b)[1..] == Decimal(-b);
      DecimalInjective(-a, -b);
    } else if a >= 0 && b >= 0 {
      DecimalInjective(a, b);
    }
  }

  /** A numeral starts with `-` exactly when its number is negative. */
  lemma IntDecimalSign(i: int)
    ensures IntDecimal(i)[0] == '-' <==> i < 0
  {
    DecimalDigits(if i < 0 then -i else i);
  }

  /** The name splits at its first `_` into the vertex and colour numerals. */
  lemma VarNameParts(v: int, c: int)
    ensures IndexOf(VarName(v, c), '_') == 1 + |IntDecimal(v)|
    ensures VarName(v, c)[1..1 + |IntDecimal(v)|] == IntDecimal(v)
    ensures VarName(v, c)[2 + |IntDecimal(v)|..] == IntDecimal(c)
  {
    IntDecimalNoUnderscore(v);
    var prefix := "x" + IntDecimal(v);
    assert VarName(v, c) == prefix + ['_'] + IntDecimal(c);
    IndexOfAfter(prefix, IntDecimal(c), '_');
  }

  /** Distinct (vertex, colour) pairs name distinct variables. */
  lemma VarNameInjective(v1: int, c1: int, v2: int, c2: int)
    requires VarName(v1, c1) == VarName(v2, c2)
    ensures v1 == v2 && c1 == c2
  {
    VarNameParts(v1, c1);
    VarNameParts(v2, c2);
    IntDecimalInjective(v1, v2);
    IntDecimalInjective(c1, c2);
  }


  // ---------------------------------------------------------------------
  // The clauses

  /** The three kinds of clause the reduction produces. */
  datatype Clause =
    | AtLeastOne(v: int)                    // vertex `v` has some colour
    | AtMostOne(v: int, c1: int, c2: int)   // vertex `v` does not have both colours
    | EdgeColor(u: int, w: int, c: int)     // the ends of edge `(u, w)` do not both have colour `c`

  /** The formula of a clause: `((x{v}_1|x{v}_2)|x{v}_3)`,
      `(~x{v}_{c1}|~x{v}_{c2})` or `(~x{u}_{c}|~x{w}_{c})`. */
  function ClauseFormula(cl: Clause): Formula
  {
    match cl
    case AtLeastOne(v) => Or(Or(ColorVar(v, 1), ColorVar(v, 2)), ColorVar(v, 3))
    case AtMostOne(v, c1, c2) => Or(Not(ColorVar(v, c1)), Not(ColorVar(v, c2)))
    case EdgeColor(u, w, c) => Or(Not(ColorVar(u, c)), Not(ColorVar(w, c)))
  }

  /** The formulas of a list of clauses, in order. */
  function Formulas(cs: seq<Clause>): (fs: seq<Formula>)
    ensures |fs| == |cs|
  {
    seq(|cs|, i requires 0 <= i < |cs| => ClauseFormula(cs[i]))
  }

  lemma FormulasAt(cs: seq<Clause>)
    ensures forall i :: 0 <= i < |cs| ==> Formulas(cs)[i] == ClauseFormula(cs[i])
  {
  }

  lemma FormulasAppend(a: seq<Clause>, b: seq<Clause>)
    ensures Formulas(a + b) == Formulas(a) + Formulas(b)
  {
    FormulasAt(a);
    FormulasAt(b);
    FormulasAt(a + b);
  }

  lemma FormulasStep(prefix: seq<Formula>, done: seq<Clause>, next: seq<Clause>, out: seq<Formula>)
    requires out == prefix + Formulas(done) + Formulas(next)
    ensures out == prefix + Formulas(done + next)
  {
    FormulasAppend(done, next);
  }

  /** The at-least-one clauses of vertices `1..n`, in order. */
  function AtLeastOneClauses(n: nat): seq<Clause>
  {
    if n == 0 then [] else AtLeastOneClauses(n - 1) + [AtLeastOne(n)]
  }

  /** The at-most-one clauses of vertex `v` for the pairs `(c1, c2)` with
      `c1 < c2 < limit`. */
  function AtMostOnePairs(v: int, c1: int, limit: int): seq<Clause>
    requires c1 < limit
    decreases limit - c1
  {
    if limit == c1 + 1 then [] else AtMostOnePairs(v, c1, limit - 1) + [AtMostOne(v, c1, limit - 1)]
  }

  /** The at-most-one clauses of vertex `v` whose first colour is below
      `c1`. */
  function AtMostOneUpTo(v: int, c1: int): seq<Clause>
    requires 1 <= c1 <= 4
    decreases c1
  {
    if c1 == 1 then [] else AtMostOneUpTo(v, c1 - 1) + AtMostOnePairs(v, c1 - 1, 4)
  }

  /** The at-most-one clauses of vertices `1..n`, three per vertex. */
  function AtMostOneClauses(n: nat): seq<Clause>
  {
    if n == 0 then [] else AtMostOneClauses(n - 1) + AtMostOneUpTo(n, 4)
  }

  /** The edge clauses of edge `(u, w)` for the colours below `c`. */
  function EdgeColors(u: int, w: int, c: int): seq<Clause>
    requires 1 <= c
    decreases c
  {
    if c == 1 then [] else EdgeColors(u, w, c - 1) + [EdgeColor(u, w, c - 1)]
  }

  /** The edge clauses of `edges`, three per edge, in order. */
  function EdgeClauses(edges: seq<(int, int)>): seq<Clause>
  {
    if |edges| == 0 then []
    else
      var e := edges[|edges| - 1];
      EdgeClauses(edges[..|edges| - 1]) + EdgeColors(e.0, e.1, 4)
  }

  /** All the clauses of the reduction, in the order they are produced. */
  function Clauses(g: Graph): seq<Clause>
  {
    AtLeastOneClauses(VertexTotal(g)) + AtMostOneClauses(VertexTotal(g)) + EdgeClauses(g.edges)
  }

  /** The left-nested conjunction `((f0&f1)&f2)...` of nonempty `fs`. */
  function FoldAnd(fs: seq<Formula>): Formula
    requires |fs| > 0
  {
    if |fs| == 1 then fs[0] else And(FoldAnd(fs[..|fs| - 1]), fs[|fs| - 1])
  }

  /** The formula of the reduction: `T` when there are no clauses, their
      conjunction otherwise. */
  function ColoringFormula(g: Graph): Formula
  {
    var fs := Formulas(Clauses(g));
    if |fs| == 0 then T else FoldAnd(fs)
  }

  /** graph3coloring_to_formula: three loop nests append the at-least-one,
      the at-most-one and the edge clauses to a list, and a last loop folds
      the list into a left-nested conjunction. */
  method Graph3ColoringToFormula(g: Graph) returns (r: Formula)
    requires WellFormed(g)
    ensures r == ColoringFormula(g)
  {
    ghost var atLeastOne, atMostOne := AtLeastOneClauses(VertexTotal(g)), AtMostOneClauses(VertexTotal(g));
    var formulas: seq<Formula> := [];
    formulas := AppendAtLeastOneClauses(g, formulas);
    formulas := AppendAtMostOneClauses(g, formulas);
    FormulasStep([], atLeastOne, atMostOne, formulas);
    formulas := AppendEdgeClauses(g, formulas);
    FormulasStep([], atLeastOne + atMostOne, EdgeClauses(g.edges), formulas);
    assert formulas == Formulas(Clauses(g));
    if |formulas| == 0 {
      return T;
    }
    r := FoldConjunction(formulas);
  }

  /** The first loop nest: for each vertex, collects its three colour
      variables and appends `((x{v}_1|x{v}_2)|x{v}_3)`. */
  method AppendAtLeastOneClauses(g: Graph, formulas: seq<Formula>) returns (out: seq<Formula>)
    ensures out == formulas + Formulas(AtLeastOneClauses(VertexTotal(g)))
  {
    var n := g.vertexCount;
    out := formulas;
    var v := 1;
    while v <= n
      invariant 1 <= v <= VertexTotal(g) + 1
      invariant out == formulas + Formulas(AtLeastOneClauses(v - 1))
    {
      var vertexFormulas: seq<Formula> := [];
      for c := 1 to 4
        invariant |vertexFormulas| == c - 1
        invariant forall k :: 0 <= k < c - 1 ==> vertexFormulas[k] == ColorVar(v, k + 1)
      {
        vertexFormulas := vertexFormulas + [Var(VarName(v, c))];
      }
      var formula := Or(vertexFormulas[0], vertexFormulas[1]);
      formula := Or(formula, vertexFormulas[2]);
      FormulasAppend(AtLeastOneClauses(v - 1), [AtLeastOne(v)]);
      out := out + [formula];
      v := v + 1;
    }
  }

  /** The second loop nest: for each vertex, appends its at-most-one
      clauses. */
  method AppendAtMostOneClauses(g: Graph, formulas: seq<Formula>) returns (out: seq<Formula>)
    ensures out == formulas + Formulas(AtMostOneClauses(VertexTotal(g)))
  {
    var n := g.vertexCount;
    out := formulas;
    var v := 1;
    while v <= n
      invariant 1 <= v <= VertexTotal(g) + 1
      invariant out == formulas + Formulas(AtMostOneClauses(v - 1))
    {
      ghost var done := AtMostOneClauses(v - 1);
      ghost var next := AtMostOneUpTo(v, 4);
      out := AppendVertexAtMostOne(v, out);
      FormulasStep(formulas, done, next, out);
      assert AtMostOneClauses(v) == done + next;
      v := v + 1;
    }
  }

  /** The inner loops of the second nest: for each pair of colours
      `c1 < c2`, appends `(~x{v}_{c1}|~x{v}_{c2})`. */
  method AppendVertexAtMostOne(v: int, formulas: seq<Formula>) returns (out: seq<Formula>)
    ensures out == formulas + Formulas(AtMostOneUpTo(v, 4))
  {
    out := formulas;
    for c1 := 1 to 4
      invariant out == formulas + Formulas(AtMostOneUpTo(v, c1))
    {
      var beforePairs := out;
      for c2 := c1 + 1 to 4
        invariant out == beforePairs + Formulas(AtMostOnePairs(v, c1, c2))
      {
        var formula := Or(Not(Var(VarName(v, c1))), Not(Var(VarName(v, c2))));
        FormulasAppend(AtMostOnePairs(v, c1, c2), [AtMostOne(v, c1, c2)]);
        out := out + [formula];
      }
      FormulasAppend(AtMostOneUpTo(v, c1), AtMostOnePairs(v, c1, 4));
    }
  }

  /** The third loop nest: for each edge `(u, w)`, appends its edge
      clauses. */
  method AppendEdgeClauses(g: Graph, formulas: seq<Formula>) returns (out: seq<Formula>)
    ensures out == formulas + Formulas(EdgeClauses(g.edges))
  {
    var edges := g.edges;
    out := formulas;
    for i := 0 to |edges|
      invariant out == formulas + Formulas(EdgeClauses(edges[..i]))
    {
      var (u, w) := edges[i];
      ghost var done := EdgeClauses(edges[..i]);
      ghost var next := EdgeColors(u, w, 4);
      out := AppendEdgeColors(u, w, out);
      FormulasStep(formulas, done, next, out);
      assert edges[..i + 1][..i] == edges[..i];
      assert EdgeClauses(edges[..i + 1]) == done + next;
    }
    assert edges[..|edges|] == edges;
  }

  /** The inner loop of the third nest: for each colour `c`, appends
      `(~x{u}_{c}|~x{w}_{c})`. */
  method AppendEdgeColors(u: int, w: int, formulas: seq<Formula>) returns (out: seq<Formula>)
    ensures out == formulas + Formulas(EdgeColors(u, w, 4))
  {
    out := formulas;
    for c := 1 to 4
      invariant out == formulas + Formulas(EdgeColors(u, w, c))
    {
      var formula := Or(Not(Var(VarName(u, c))), Not(Var(VarName(w, c))));
      FormulasAppend(EdgeColors(u, w, c), [EdgeColor(u, w, c)]);
      out := out + [formula];
    }
  }

  /** The last loop: folds a nonempty list into `((f0&f1)&f2)...`. */
  method FoldConjunction(formulas: seq<Formula>) returns (r: Formula)
    requires |formulas| > 0
    ensures r == FoldAnd(formulas)
  {
    r := formulas[0];
    for k := 1 to |formulas|
      invariant r == FoldAnd(formulas[..k])
    {
      assert formulas[..k + 1][..k] == formulas[..k];
      r := And(r, formulas[k]);
    }
    assert formulas[..|formulas|] == formulas;
  }

  // ---------------------------------------------------------------------
  // Properties of the clauses

  /** The clauses the reduction produces for `g`: an at-least-one clause
      per vertex, an at-most-one clause per vertex and pair of colours, and
      an edge clause per edge and colour. */
  predicate IsClauseOf(g: Graph, cl: Clause)
  {
    match cl
    case AtLeastOne(v) => 1 <= v <= g.vertexCount
    case AtMostOne(v, c1, c2) => 1 <= v <= g.vertexCount && 1 <= c1 < c2 <= 3
    case EdgeColor(u, w, c) => (u, w) in g.edges && 1 <= c <= 3
  }

  predicate IsAtLeastOne(n: int, cl: Clause)
  {
    match cl
    case AtLeastOne(v) => 1 <= v <= n
    case _ => false
  }

  predicate IsAtMostOne(n: int, cl: Clause)
  {
    match cl
    case AtMostOne(v, c1, c2) => 1 <= v <= n && 1 <= c1 < c2 <= 3
    case _ => false
  }

  predicate IsEdgeColor(edges: seq<(int, int)>, cl: Clause)
  {
    match cl
    case EdgeColor(u, w, c) => (u, w) in edges && 1 <= c <= 3
    case _ => false
  }

  lemma {:induction false} AtLeastOneClausesMembers(n: nat)
    ensures |AtLeastOneClauses(n)| == n
    ensures forall cl :: cl in AtLeastOneClauses(n) <==> IsAtLeastOne(n, cl)
  {
    if n > 0 {
      AtLeastOneClausesMembers(n - 1);
      forall cl
        ensures cl in AtLeastOneClauses(n) <==> IsAtLeastOne(n, cl)
      {
        assert IsAtLeastOne(n, cl) <==> IsAtLeastOne(n - 1, cl) || cl == AtLeastOne(n);
      }
    }
  }

  lemma AtMostOneUpToFour(v: int)
    ensures AtMostOneUpTo(v, 4) == [AtMostOne(v, 1, 2), AtMostOne(v, 1, 3), AtMostOne(v, 2, 3)]
  {
    assert AtMostOnePairs(v, 1, 4) == [AtMostOne(v, 1, 2), AtMostOne(v, 1, 3)];
    assert AtMostOnePairs(v, 2, 4) == [AtMostOne(v, 2, 3)];
  }

  /** Membership in a sequence extended by three elements. */
  lemma InAppendThree<X>(s: seq<X>, a: X, b: X, c: X, x: X)
    ensures x in s + [a, b, c] <==> x in s || x == a || x == b || x == c
  {
    assert (s + [a, b, c])[|s|] == a && (s + [a, b, c])[|s| + 1] == b && (s + [a, b, c])[|s| + 2] == c;
    if x in s + [a, b, c] {
      var k :| 0 <= k < |s| + 3 && (s + [a, b, c])[k] == x;
      if k < |s| {
        assert s[k] == x;
      }
    }
  }

  /** One vertex's step of the at-most-one membership proof. */
  lemma AtMostOneStep(n: int, before: seq<Clause>)
    requires 1 <= n
    requires forall cl :: cl in before <==> IsAtMostOne(n - 1, cl)
    ensures forall cl :: cl in before + [AtMostOne(n, 1, 2), AtMostOne(n, 1, 3), AtMostOne(n, 2, 3)] <==> IsAtMostOne(n, cl)
  {
    forall cl
      ensures cl in before + [AtMostOne(n, 1, 2), AtMostOne(n, 1, 3), AtMostOne(n, 2, 3)] <==> IsAtMostOne(n, cl)
    {
      InAppendThree(before, AtMostOne(n, 1, 2), AtMostOne(n, 1, 3), AtMostOne(n, 2, 3), cl);
      match cl
      case AtMostOne(v, c1, c2) =>
        assert IsAtMostOne(n, cl) <==>
               IsAtMostOne(n - 1, cl) || cl == AtMostOne(n, 1, 2) || cl == AtMostOne(n, 1, 3) || cl == AtMostOne(n, 2, 3);
      case _ =>
    }
  }

  lemma {:induction false} AtMostOneClausesMembers(n: nat)
    ensures |AtMostOneClauses(n)| == 3 * n
    ensures forall cl :: cl in AtMostOneClauses(n) <==> IsAtMostOne(n, cl)
  {
    if n > 0 {
      AtMostOneClausesMembers(n - 1);
      AtMostOneUpToFour(n);
      AtMostOneStep(n, AtMostOneClauses(n - 1));
    }
  }

  lemma EdgeColorsFour(u: int, w: int)
    ensures EdgeColors(u, w, 4) == [EdgeColor(u, w, 1), EdgeColor(u, w, 2), EdgeColor(u, w, 3)]
  {
    assert EdgeColors(u, w, 2) == [EdgeColor(u, w, 1)];
  }

  /** One edge's step of the edge-clause membership proof. */
  lemma EdgeStep(init: seq<(int, int)>, e: (int, int), before: seq<Clause>)
    requires forall cl :: cl in before <==> IsEdgeColor(init, cl)
    ensures forall cl :: cl in before + [EdgeColor(e.0, e.1, 1), EdgeColor(e.0, e.1, 2), EdgeColor(e.0, e.1, 3)] <==>
                         IsEdgeColor(init + [e], cl)
  {
    forall cl
      ensures cl in before + [EdgeColor(e.0, e.1, 1), EdgeColor(e.0, e.1, 2), EdgeColor(e.0, e.1, 3)] <==>
              IsEdgeColor(init + [e], cl)
    {
      InAppendThree(before, EdgeColor(e.0, e.1, 1), EdgeColor(e.0, e.1, 2), EdgeColor(e.0, e.1, 3), cl);
      match cl
      case EdgeColor(u, w, c) => assert (u, w) in init + [e] <==> (u, w) in init || (u, w) == e;
      case _ =>
    }
  }

  lemma {:induction false} EdgeClausesMembers(edges: seq<(int, int)>)
    ensures |EdgeClauses(edges)| == 3 * |edges|
    ensures forall cl :: cl in EdgeClauses(edges) <==> IsEdgeColor(edges, cl)
  {
    if |edges| > 0 {
      var init := edges[..|edges| - 1];
      var e := edges[|edges| - 1];
      EdgeClausesMembers(init);
      EdgeColorsFour(e.0, e.1);
      assert edges == init + [e];
      EdgeStep(init, e, EdgeClauses(init));
    }
  }

  /** The reduction produces `4n + 3|E|` clauses. */
  lemma ClauseCount(g: Graph)
    ensures |Clauses(g)| == 4 * VertexTotal(g) + 3 * |g.edges|
  {
    AtLeastOneClausesMembers(VertexTotal(g));
    AtMostOneClausesMembers(VertexTotal(g));
    EdgeClausesMembers(g.edges);
  }

  /** The clause list holds exactly the clauses `IsClauseOf` describes. */
  lemma ClausesMembers(g: Graph)
    ensures forall cl :: cl in Clauses(g) <==> IsClauseOf(g, cl)
  {
    AtLeastOneClausesMembers(VertexTotal(g));
    AtMostOneClausesMembers(VertexTotal(g));
    EdgeClausesMembers(g.edges);
  }

  lemma {:induction false} FoldAndEvaluate(fs: seq<Formula>, m: Model)
    requires |fs| > 0
    ensures Evaluate(FoldAnd(fs), m) <==> forall i :: 0 <= i < |fs| ==> Evaluate(fs[i], m)
  {
    if |fs| > 1 {
      FoldAndEvaluate(fs[..|fs| - 1], m);
    }
  }

  lemma {:induction false} FoldAndVariables(fs: seq<Formula>, s: string)
    requires |fs| > 0
    ensures s in Variables(FoldAnd(fs)) <==> exists i :: 0 <= i < |fs| && s in Variables(fs[i])
  {
    if |fs| > 1 {
      FoldAndVariables(fs[..|fs| - 1], s);
    }
  }

  lemma {:induction false} FoldAndFirst(fs: seq<Formula>)
    requires |fs| > 0
    ensures FoldAnd(fs) == fs[0] || FoldAnd(fs).And?
  {
  }

  /** The reduction's formula holds in a model exactly when every clause
      does. */
  lemma ColoringFormulaEvaluate(g: Graph, m: Model)
    ensures Evaluate(ColoringFormula(g), m) <==> forall cl :: cl in Clauses(g) ==> Evaluate(ClauseFormula(cl), m)
  {
    var cs := Clauses(g);
    var fs := Formulas(cs);
    if |cs| > 0 {
      FoldAndEvaluate(fs, m);
      if Evaluate(ColoringFormula(g), m) {
        forall cl | cl in cs
          ensures Evaluate(ClauseFormula(cl), m)
        {
          var i :| 0 <= i < |cs| && cs[i] == cl;
          assert Evaluate(fs[i], m);
        }
      }
    }
  }

  /** The formula is `T` exactly when there are no vertices and no edges. */
  lemma ColoringFormulaTrivial(g: Graph)
    ensures ColoringFormula(g) == T <==> VertexTotal(g) == 0 && |g.edges| == 0
  {
    ClauseCount(g);
    var fs := Formulas(Clauses(g));
    if |fs| > 0 {
      FoldAndFirst(fs);
      assert fs[0].Or?;
    }
  }

  /** The variables of a clause of `g` name vertices of `g` and colours in
      1..3. */
  lemma ClauseVariables(g: Graph, cl: Clause, s: string)
    requires WellFormed(g) && IsClauseOf(g, cl)
    requires s in Variables(ClauseFormula(cl))
    ensures exists v, c :: 1 <= v <= g.vertexCount && 1 <= c <= 3 && s == VarName(v, c)
  {
    match cl
    case AtLeastOne(v) =>
      assert Variables(Or(ColorVar(v, 1), ColorVar(v, 2))) == {VarName(v, 1), VarName(v, 2)};
      assert Variables(ClauseFormula(cl)) == {VarName(v, 1), VarName(v, 2)} + {VarName(v, 3)};
      if s == VarName(v, 1) {
        assert 1 <= v <= g.vertexCount && s == VarName(v, 1);
      } else if s == VarName(v, 2) {
        assert 1 <= v <= g.vertexCount && s == VarName(v, 2);
      } else {
        assert 1 <= v <= g.vertexCount && s == VarName(v, 3);
      }
    case AtMostOne(v, c1, c2) =>
      assert Variables(Not(ColorVar(v, c1))) == {VarName(v, c1)};
      assert Variables(Not(ColorVar(v, c2))) == {VarName(v, c2)};
      if s == VarName(v, c1) {
        assert 1 <= v <= g.vertexCount && 1 <= c1 <= 3 && s == VarName(v, c1);
      } else {
        assert 1 <= v <= g.vertexCount && 1 <= c2 <= 3 && s == VarName(v, c2);
      }
    case EdgeColor(u, w, c) =>
      var j :| 0 <= j < |g.edges| && g.edges[j] == (u, w);
      assert EdgeWellFormed(g, g.edges[j]);
      assert Variables(Not(ColorVar(u, c))) == {VarName(u, c)};
      assert Variables(Not(ColorVar(w, c))) == {VarName(w, c)};
      if s == VarName(u, c) {
        assert 1 <= u <= g.vertexCount && 1 <= c <= 3 && s == VarName(u, c);
      } else {
        assert 1 <= w <= g.vertexCount && 1 <= c <= 3 && s == VarName(w, c);
      }
  }

  /** Every variable of the formula is `x{v}_{c}` for a vertex `v` and a
      colour `c` in 1..3. */
  lemma ColoringFormulaVariables(g: Graph)
    requires WellFormed(g)
    ensures forall s :: s in Variables(ColoringFormula(g)) ==>
              exists v, c :: 1 <= v <= g.vertexCount && 1 <= c <= 3 && s == VarName(v, c)
  {
    var cs := Clauses(g);
    var fs := Formulas(cs);
    ClausesMembers(g);
    forall s | s in Variables(ColoringFormula(g))
      ensures exists v, c :: 1 <= v <= g.vertexCount && 1 <= c <= 3 && s == VarName(v, c)
    {
      FoldAndVariables(fs, s);
      var i :| 0 <= i < |fs| && s in Variables(fs[i]);
      assert cs[i] in cs;
      ClauseVariables(g, cs[i], s);
    }
  }

  // ---------------------------------------------------------------------
  // Satisfiable exactly when 3-colourable

  /** The model of a colouring: `x{v}_{c}` holds exactly when `v` has colour
      `c`. */
  ghost function ColoringModel(coloring: map<int, int>): Model
  {
    s => exists v, c :: VarName(v, c) == s && v in coloring && coloring[v] == c
  }

  lemma ColoringModelAt(coloring: map<int, int>, v: int, c: int)
    ensures ColoringModel(coloring)(VarName(v, c)) <==> v in coloring && coloring[v] == c
  {
    if ColoringModel(coloring)(VarName(v, c)) {
      var v', c' :| VarName(v', c') == VarName(v, c) && v' in coloring && coloring[v'] == c';
      VarNameInjective(v', c', v, c);
    }
  }

  /** Under a valid colouring's model every clause of the reduction holds. */
  lemma ClauseHoldsUnderColoring(g: Graph, coloring: map<int, int>, cl: Clause)
    requires ValidColoring(g, coloring)
    requires IsClauseOf(g, cl)
    ensures Evaluate(ClauseFormula(cl), ColoringModel(coloring))
  {
    match cl
    case AtLeastOne(v) =>
      ColoringModelAt(coloring, v, 1);
      ColoringModelAt(coloring, v, 2);
      ColoringModelAt(coloring, v, 3);
    case AtMostOne(v, c1, c2) =>
      ColoringModelAt(coloring, v, c1);
      ColoringModelAt(coloring, v, c2);
    case EdgeColor(u, w, c) =>
      var j :| 0 <= j < |g.edges| && g.edges[j] == (u, w);
      ColoringModelAt(coloring, u, c);
      ColoringModelAt(coloring, w, c);
  }

  /** A valid colouring satisfies the formula. */
  lemma ValidColoringSatisfies(g: Graph, coloring: map<int, int>)
    requires ValidColoring(g, coloring)
    ensures Evaluate(ColoringFormula(g), ColoringModel(coloring))
  {
    ClausesMembers(g);
    forall cl | cl in Clauses(g)
      ensures Evaluate(ClauseFormula(cl), ColoringModel(coloring))
    {
      ClauseHoldsUnderColoring(g, coloring, cl);
    }
    ColoringFormulaEvaluate(g, ColoringModel(coloring));
  }

  /** The first colour whose variable holds for `v` in `m`, 3 if none. */
  function FirstTrueColor(m: Model, v: int): (c: int)
    ensures 1 <= c <= 3
  {
    if m(VarName(v, 1)) then 1 else if m(VarName(v, 2)) then 2 else 3
  }

  /** When vertex `v`'s at-least-one clause holds, its first true colour's
      variable holds. */
  lemma FirstTrueColorHolds(m: Model, v: int)
    requires Evaluate(ClauseFormula(AtLeastOne(v)), m)
    ensures m(VarName(v, FirstTrueColor(m, v)))
  {
    assert ClauseFormula(AtLeastOne(v)) == Or(Or(ColorVar(v, 1), ColorVar(v, 2)), ColorVar(v, 3));
    assert Evaluate(Or(ColorVar(v, 1), ColorVar(v, 2)), m) || Evaluate(ColorVar(v, 3), m);
    assert forall c :: Evaluate(ColorVar(v, c), m) == m(VarName(v, c));
  }

  /** The colouring read off a model: each vertex gets its first true
      colour. */
  function ModelColoring(g: Graph, m: Model): map<int, int>
  {
    map v | 1 <= v <= VertexTotal(g) :: FirstTrueColor(m, v)
  }

  /** Under a model satisfying the formula, the ends of every edge get
      different first true colours. */
  lemma EdgeEndsDiffer(g: Graph, m: Model, i: nat)
    requires WellFormed(g) && i < |g.edges|
    requires forall cl :: cl in Clauses(g) ==> Evaluate(ClauseFormula(cl), m)
    ensures FirstTrueColor(m, g.edges[i].0) != FirstTrueColor(m, g.edges[i].1)
  {
    var u, w := g.edges[i].0, g.edges[i].1;
    assert EdgeWellFormed(g, g.edges[i]);
    var c := FirstTrueColor(m, u);
    ClausesMembers(g);
    assert IsClauseOf(g, AtLeastOne(u));
    assert IsClauseOf(g, AtLeastOne(w));
    assert IsClauseOf(g, EdgeColor(u, w, c)) by {
      assert g.edges[i] == (u, w);
    }
    FirstTrueColorHolds(m, u);
    FirstTrueColorHolds(m, w);
    assert Evaluate(ClauseFormula(EdgeColor(u, w, c)), m);
    assert ClauseFormula(EdgeColor(u, w, c)) == Or(Not(ColorVar(u, c)), Not(ColorVar(w, c)));
    assert Evaluate(Not(ColorVar(u, c)), m) == !m(VarName(u, c));
    assert Evaluate(Not(ColorVar(w, c)), m) == !m(VarName(w, c));
  }

  /** A model satisfying the formula gives a valid colouring. */
  lemma SatisfyingModelColors(g: Graph, m: Model)
    requires WellFormed(g)
    requires Evaluate(ColoringFormula(g), m)
    ensures ValidColoring(g, ModelColoring(g, m))
  {
    var coloring := ModelColoring(g, m);
    ColoringFormulaEvaluate(g, m);
    forall i | 0 <= i < |g.edges|
      ensures g.edges[i].0 in coloring && g.edges[i].1 in coloring
      ensures coloring[g.edges[i].0] != coloring[g.edges[i].1]
    {
      assert EdgeWellFormed(g, g.edges[i]);
      EdgeEndsDiffer(g, m, i);
    }
  }

  /** The reduction is correct: the formula is satisfiable exactly when the
      graph is 3-colourable. */
  lemma ColoringFormulaSatisfiableIffColorable(g: Graph)
    requires WellFormed(g)
    ensures Satisfiable(ColoringFormula(g)) <==> ThreeColorable(g)
  {
    if Satisfiable(ColoringFormula(g)) {
      var m :| Evaluate(ColoringFormula(g), m);
      SatisfyingModelColors(g, m);
    }
    if ThreeColorable(g) {
      var coloring :| ValidColoring(g, coloring);
      ValidColoringSatisfies(g, coloring);
    }
  }
}
