/** The part of the olivere/elastic query model that the two stacks build. */
module Elastic {

  /** The value of a term query: the Go code passes a string, an int or a bool. */
  datatype TermVal = StrVal(s: string) | IntVal(i: int) | BoolVal(b: bool)

  /** The four bounds a range query is given through Lt, Lte, Gt and Gte. */
  datatype Cmp = Lt | Lte | Gt | Gte

  /** elastic.Query, restricted to the constructors the stacks create.
      A bool query keeps its clauses in insertion order. */
  datatype Query =
    | Term(field: string, val: TermVal)
    | Exists(field: string)
    | RangeQ(field: string, op: Cmp, bound: TermVal)
    | Match(field: string, text: string)
    | Phrase(field: string, text: string)
    | Bool(must: seq<Query>, mustNot: seq<Query>, should: seq<Query>)

  /** An empty bool query, as elastic.NewBoolQuery() returns it. */
  function NewBool(): Query
  {
    Bool([], [], [])
  }

  /** Which documents a query matches, given which documents each leaf matches.
      A bool query matches when every `must` clause matches, no `mustNot` clause
      matches and, when it has `should` clauses but no `must` clause, at least one
      `should` clause matches (the search engine's default minimum_should_match in
      query context; in filter context at least one `should` clause must match even
      beside a `must`, which this function does not model). */
  function Eval(leaf: Query -> bool, q: Query): bool
    decreases q
  {
    match q
    case Bool(must, mustNot, should) =>
      (forall i :: 0 <= i < |must| ==> Eval(leaf, must[i])) &&
      (forall i :: 0 <= i < |mustNot| ==> !Eval(leaf, mustNot[i])) &&
      (must == [] && should != [] ==> exists i :: 0 <= i < |should| && Eval(leaf, should[i]))
    case _ => leaf(q)
  }

  /** A bool query whose only clause is one `should` clause matches exactly
      what that clause matches. */
  lemma SingleShouldMatchesClause(leaf: Query -> bool, c: Query)
    ensures Eval(leaf, Bool([], [], [c])) == Eval(leaf, c)
  {
    var q := Bool([], [], [c]);
    if Eval(leaf, c) {
      assert q.should[0] == c;
    }
  }

  /** Once a bool query has a `must` clause, its `should` clauses do not
      change what it matches. */
  lemma ShouldIgnoredBesideMust(leaf: Query -> bool, must: seq<Query>, mustNot: seq<Query>, should: seq<Query>)
    requires must != []
    ensures Eval(leaf, Bool(must, mustNot, should)) == Eval(leaf, Bool(must, mustNot, []))
  {
  }
}
