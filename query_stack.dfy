/** utils/query_stack.go: the stack of bool-query levels, one per open
    group, and the table by which a closed group is filed in its parent. */
module Queries {
  import opened Wrappers
  import opened Elastic

  /** Oper is a Go uint8; only And and Or are defined. */
  newtype Oper = x: int | 0 <= x < 256

  const And: Oper := 0
  const Or: Oper := 1

  /** The log.Fatal call of query_stack.go. */
  datatype Fatal = UnknownOper(code: Oper)

  /** The three clause lists of a bool query. */
  datatype Bucket = MustBucket | MustNotBucket | ShouldBucket

  /** utils.Query: one level, a bool query with the operator and negation
      the parser gives its group. */
  class Level {
    var must: seq<Query>
    var mustNot: seq<Query>
    var should: seq<Query>
    var oper: Oper
    var negate: bool

    /** NewLevel: an empty bool query, And, not negated. */
    constructor NewLevel()
      ensures must == [] && mustNot == [] && should == []
      ensures oper == And && !negate
    {
      must, mustNot, should := [], [], [];
      oper, negate := And, false;
    }

    /** The level's bool query (the Go field BoolQ). */
    function BoolQ(): Query
      reads this
    {
      Bool(must, mustNot, should)
    }

    function Clauses(b: Bucket): seq<Query>
      reads this
    {
      match b
      case MustBucket => must
      case MustNotBucket => mustNot
      case ShouldBucket => should
    }

    method Must(eq: Query)
      modifies this
      ensures must == old(must) + [eq] && mustNot == old(mustNot) && should == old(should)
      ensures oper == old(oper) && negate == old(negate)
    {
      must := must + [eq];
    }

    method MustNot(eq: Query)
      modifies this
      ensures mustNot == old(mustNot) + [eq] && must == old(must) && should == old(should)
      ensures oper == old(oper) && negate == old(negate)
    {
      mustNot := mustNot + [eq];
    }

    method Should(eq: Query)
      modifies this
      ensures should == old(should) + [eq] && must == old(must) && mustNot == old(mustNot)
      ensures oper == old(oper) && negate == old(negate)
    {
      should := should + [eq];
    }
  }

  /** The nesting table: the bucket of the parent a closed group goes to,
      and the clause that is put there. A negated group is always excluded
      through mustNot; only a plain Or group lands in should; an unknown
      operator is fatal. */
  function Nesting(oper: Oper, negate: bool, child: Query): (r: Result<(Bucket, Query), Fatal>)
    ensures r.Err? <==> oper != And && oper != Or
    ensures r.Err? ==> r.error == UnknownOper(oper)
    ensures r.Ok? ==> (r.value.0 == MustNotBucket <==> negate)
    ensures r.Ok? ==> (r.value.0 == ShouldBucket <==> oper == Or && !negate)
    ensures r.Ok? ==> (r.value.0 == MustBucket <==> oper == And && !negate)
    ensures r.Ok? && !(oper == Or && negate) ==> r.value.1 == child
    ensures r.Ok? && oper == Or && negate ==> r.value.1 == Bool([], [], [child])
  {
    if oper == And then
      if negate then Ok((MustNotBucket, child)) else Ok((MustBucket, child))
    else if oper == Or then
      if negate then Ok((MustNotBucket, Bool([], [], [child]))) else Ok((ShouldBucket, child))
    else Err(UnknownOper(oper))
  }

  /** The clause the table files matches exactly the documents the child
      matches, so the wrapping of a negated Or group changes nothing but shape. */
  lemma NestingKeepsMeaning(leaf: Query -> bool, oper: Oper, negate: bool, child: Query)
    requires Nesting(oper, negate, child).Ok?
    ensures Eval(leaf, Nesting(oper, negate, child).value.1) == Eval(leaf, child)
  {
    if oper == Or && negate {
      SingleShouldMatchesClause(leaf, child);
    }
  }

  /** After a nesting step: the parent got the table's clause in the table's
      bucket and nothing else, or the operator was unknown and the parent is
      untouched. */
  twostate predicate FiledIn(out: Level, parent: Level, new r: Result<Level, Fatal>)
    reads out, parent
  {
    match Nesting(out.oper, out.negate, out.BoolQ())
    case Err(e) => r == Err(e) && unchanged(parent)
    case Ok(nest) =>
      r == Ok(out) &&
      parent.Clauses(nest.0) == old(parent.Clauses(nest.0)) + [nest.1] &&
      (forall b :: b != nest.0 ==> parent.Clauses(b) == old(parent.Clauses(b))) &&
      parent.oper == old(parent.oper) && parent.negate == old(parent.negate)
  }

  class QueryStack {
    var depth: int
    var stack: seq<Level>
    /** Whether the Go slice is still nil; popping the base level leaves an
        empty slice that is not nil. */
    var isNil: bool

    /** The zero QueryStack{} the program starts from. */
    constructor ()
      ensures isNil && stack == [] && depth == 0
    {
      isNil, stack, depth := true, [], 0;
    }

    /** depth indexes the last level, and no level appears twice. */
    ghost predicate Valid()
      reads this
    {
      (isNil ==> stack == [] && depth == 0) &&
      (!isNil ==> depth == |stack| - 1) &&
      (forall i, j :: 0 <= i < j < |stack| ==> stack[i] != stack[j])
    }

    /** Creates the base level on first use, then returns stack[depth],
        which is always the last level. */
    method Current() returns (l: Level)
      requires Valid() && (isNil || stack != [])
      modifies this
      ensures Valid() && !isNil && stack != [] && l == stack[|stack| - 1]
      ensures old(isNil) ==> fresh(l) && stack == [l] && depth == 0
      ensures old(isNil) ==> l.BoolQ() == NewBool() && l.oper == And && !l.negate
      ensures !old(isNil) ==> stack == old(stack) && depth == old(depth)
    {
      if isNil {
        var base := new Level.NewLevel();
        stack, isNil := [base], false;
      }
      l := stack[depth];
    }

    /** Opens a level. The operator argument is ignored: the new level is
        always And and not negated. */
    method Push(b: Oper)
      requires Valid()
      modifies this
      ensures Valid() && !isNil && depth == old(depth) + 1
      ensures old(isNil) ==> |stack| == 2 && fresh(stack[0])
      ensures old(isNil) ==> stack[0].BoolQ() == NewBool() && stack[0].oper == And && !stack[0].negate
      ensures !old(isNil) ==> stack[..|stack| - 1] == old(stack)
      ensures fresh(stack[|stack| - 1])
      ensures stack[|stack| - 1].BoolQ() == NewBool() && stack[|stack| - 1].oper == And && !stack[|stack| - 1].negate
    {
      if isNil {
        var base := new Level.NewLevel();
        stack, isNil := [base], false;
      }
      var level := new Level.NewLevel();
      stack := stack + [level];
      depth := depth + 1;
    }

    /** The switch of Pop: files a popped level in the current level. */
    method Nest(out: Level) returns (r: Result<Level, Fatal>)
      requires Valid() && stack != [] && out !in stack
      modifies this, stack[|stack| - 1]
      ensures stack == old(stack) && depth == old(depth) && isNil == old(isNil)
      ensures FiledIn(out, old(stack[|stack| - 1]), r)
    {
      var parent := Current();
      if out.oper == And {
        if out.negate {
          parent.MustNot(out.BoolQ());
        } else {
          parent.Must(out.BoolQ());
        }
      } else if out.oper == Or {
        if out.negate {
          parent.MustNot(Bool([], [], [out.BoolQ()]));
        } else {
          parent.Should(out.BoolQ());
        }
      } else {
        return Err(UnknownOper(out.oper));
      }
      return Ok(out);
    }

    /** Pop as written: removes the last level and files it in the new last
        level only when the new depth is above 0, so a level popped back to
        depth 0 leaves the base level unchanged. */
    method Pop() returns (r: Result<Level, Fatal>)
      requires Valid() && stack != []
      modifies this, if |stack| >= 3 then {stack[|stack| - 2]} else {}
      ensures Valid() && !isNil
      ensures stack == old(stack[..|stack| - 1]) && depth == old(depth) - 1
      ensures depth <= 0 ==> r == Ok(old(stack[|stack| - 1]))
      ensures depth == 0 ==> unchanged(stack[0])
      ensures depth > 0 ==> FiledIn(old(stack[|stack| - 1]), old(stack[|stack| - 2]), r)
    {
      var out := stack[depth];
      stack := stack[..depth];
      depth := depth - 1;
      r := Ok(out);
      if depth > 0 {
        r := Nest(out);
      }
    }

    /** Pop as evidently intended: the popped level is filed in its parent
        whenever a parent remains, the base level included. */
    method PopAndNest() returns (r: Result<Level, Fatal>)
      requires Valid() && stack != []
      modifies this, if |stack| >= 2 then {stack[|stack| - 2]} else {}
      ensures Valid() && !isNil
      ensures stack == old(stack[..|stack| - 1]) && depth == old(depth) - 1
      ensures stack == [] ==> r == Ok(old(stack[|stack| - 1]))
      ensures stack != [] ==> FiledIn(old(stack[|stack| - 1]), old(stack[|stack| - 2]), r)
    {
      var out := stack[depth];
      stack := stack[..depth];
      depth := depth - 1;
      r := Ok(out);
      if depth >= 0 {
        r := Nest(out);
      }
    }
  }

  /** One group opened and closed at the top level by Pop as written: the
      clause added inside it never reaches the base level. */
  method TopLevelGroupIsDropped(t: Query) returns (base: Query, popped: Query)
    ensures base == NewBool()
    ensures popped == Bool([t], [], [])
  {
    var qs := new QueryStack();
    qs.Push(And);
    var group := qs.Current();
    group.Must(t);
    var r := qs.Pop();
    var level := qs.Current();
    base, popped := level.BoolQ(), r.value.BoolQ();
  }

  /** The same group closed by PopAndNest ends up in the base level's must. */
  method TopLevelGroupIsNested(t: Query) returns (base: Query)
    ensures base == Bool([Bool([t], [], [])], [], [])
  {
    var qs := new QueryStack();
    qs.Push(And);
    var group := qs.Current();
    assert group.must == [] && group.mustNot == [] && group.should == [];
    group.Must(t);
    assert group.oper == And && !group.negate;
    assert group.BoolQ() == Bool([t], [], []);
    assert Nesting(group.oper, group.negate, group.BoolQ()) == Ok((MustBucket, Bool([t], [], [])));
    ghost var base0 := qs.stack[0];
    var r := qs.PopAndNest();
    var level := qs.Current();
    assert level == base0;
    assert level.Clauses(MustNotBucket) == [] && level.Clauses(ShouldBucket) == [];
    base := level.BoolQ();
  }

  /** A negated Or group closed by Pop above the top level reaches its parent
      as mustNot(bool{should: [group]}). */
  method NegatedOrGroupIsFiled(t: Query) returns (mustNot: seq<Query>)
    ensures mustNot == [Bool([], [], [Bool([], [], [t])])]
  {
    var qs := new QueryStack();
    qs.Push(And);
    qs.Push(And);
    ghost var parent0 := qs.stack[1];
    assert parent0.mustNot == [];
    var group := qs.Current();
    assert group.should == [];
    group.oper, group.negate := Or, true;
    group.Should(t);
    assert group.BoolQ() == Bool([], [], [t]);
    assert Nesting(group.oper, group.negate, group.BoolQ()) == Ok((MustNotBucket, Bool([], [], [Bool([], [], [t])])));
    var r := qs.Pop();
    var parent := qs.Current();
    assert parent == parent0;
    mustNot := parent.mustNot;
  }
}
