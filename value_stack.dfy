/** utils/value_stack.go: the stack of leaf values, with group-start
    sentinels mixed in, and the typed pushers that build one leaf each. */
module Values {
  import opened Wrappers
  import opened Elastic
  import opened Literals

  /** RangeOp is a Go uint8; only the first four codes name an operation. */
  newtype RangeOp = x: int | 0 <= x < 256

  const LessThan: RangeOp := 0
  const LessThanEqual: RangeOp := 1
  const GreaterThan: RangeOp := 2
  const GreaterThanEqual: RangeOp := 3

  /** One stack entry. A sentinel has no query (Go's nil) and GroupStart set. */
  datatype Value = Value(q: Option<Query>, negate: bool, groupStart: bool)

  const GroupSentinel: Value := Value(None, false, true)

  /** The log.Fatal calls of value_stack.go, each with what its message names. */
  datatype Fatal =
    | PopEmpty
    | BadBool(field: string, value: string)
    | BadInt(field: string, value: string)
    | BadRangeValue(field: string, value: string)
    | BadRangeOp(code: RangeOp, field: string, value: string)

  datatype Outcome = Pass | Fail(error: Fatal)

  /** The bound Range gives its query: the text itself when it contains a
      `dddd/dd/dd` date, otherwise the integer it spells. */
  function RangeBound(value: string): (r: Option<TermVal>)
    ensures r.Some? && r.value.StrVal? ==> r.value.s == value && exists i: nat :: DateAt(value, i)
    ensures r.Some? && r.value.IntVal? ==> Atoi(value) == Some(r.value.i)
    ensures r.Some? ==> r.value.StrVal? || r.value.IntVal?
    ensures r.None? <==> (forall i: nat :: !DateAt(value, i)) && Atoi(value).None?
  {
    if ContainsDate(value) then Some(StrVal(value))
    else match Atoi(value)
      case Some(i) => Some(IntVal(i))
      case None => None
  }

  /** The comparison each RangeOp code selects; `None` for unknown codes. */
  function RangeCmp(op: RangeOp): (r: Option<Cmp>)
    ensures r.Some? <==> op <= GreaterThanEqual
    ensures r == Some(Lt) <==> op == LessThan
    ensures r == Some(Lte) <==> op == LessThanEqual
    ensures r == Some(Gt) <==> op == GreaterThan
    ensures r == Some(Gte) <==> op == GreaterThanEqual
  {
    if op == LessThan then Some(Lt)
    else if op == LessThanEqual then Some(Lte)
    else if op == GreaterThan then Some(Gt)
    else if op == GreaterThanEqual then Some(Gte)
    else None
  }

  /** A number Itoa writes never looks like a date, so Range keeps it as an int. */
  lemma RangeBoundItoa(n: int)
    requires MinInt <= n <= MaxInt
    ensures RangeBound(Itoa(n)) == Some(IntVal(n))
  {
    var s := Itoa(n);
    NatDigitsValue(if n < 0 then -n else n);
    assert forall k :: 0 <= k < |s| ==> s[k] != '/' by {
      forall k | 0 <= k < |s| ensures s[k] != '/' {
        if n < 0 && k > 0 {
          assert s[k] == NatDigits(-n)[k - 1];
        }
      }
    }
    assert forall i: nat :: !DateAt(s, i) by {
      forall i: nat ensures !DateAt(s, i) {
        if i + 10 <= |s| {
          assert s[i + 4] != '/';
        }
      }
    }
    AtoiItoa(n);
  }

  /** What successive pops return: the entries of s, most recent first. */
  function Popped(s: seq<Value>): (r: seq<Value>)
    ensures |r| == |s|
    ensures forall i :: 0 <= i < |s| ==> r[i] == s[|s| - 1 - i]
  {
    seq(|s|, i requires 0 <= i < |s| => s[|s| - 1 - i])
  }

  /** The loop of PopGroup over the values it pops (most recent first): it
      collects values until it meets a sentinel or the stack runs dry; the
      sentinel, or the value whose pop emptied the stack, is not collected.
      The result is a prefix of what was popped and holds no sentinel. */
  function GroupLoop(p: seq<Value>): (out: seq<Value>)
    requires p != []
    ensures |out| < |p| && out == p[..|out|]
    ensures forall i :: 0 <= i < |out| ==> !out[i].groupStart
  {
    if p[0].groupStart || |p| == 1 then [] else [p[0]] + GroupLoop(p[1..])
  }

  /** PopGroup stops at the first sentinel: it returns everything above it. */
  lemma {:induction false} GroupLoopStopsAtSentinel(p: seq<Value>, j: nat)
    requires j < |p| && p[j].groupStart
    requires forall i :: 0 <= i < j ==> !p[i].groupStart
    ensures GroupLoop(p) == p[..j]
  {
    if j > 0 {
      GroupLoopStopsAtSentinel(p[1..], j - 1);
      assert p[..j] == [p[0]] + p[1..][..j - 1];
    }
  }

  /** Without a sentinel, PopGroup drops the last value it pops. */
  lemma {:induction false} GroupLoopDropsLast(p: seq<Value>)
    requires p != []
    requires forall i :: 0 <= i < |p| ==> !p[i].groupStart
    ensures GroupLoop(p) == p[..|p| - 1]
  {
    if |p| > 1 {
      GroupLoopDropsLast(p[1..]);
      assert p[..|p| - 1] == [p[0]] + p[1..][..|p| - 2];
    }
  }

  /** What PopGroup is for: after StartGroup and pushes of ordinary values,
      it returns exactly those values, most recent first. */
  lemma PopGroupReturnsGroup(below: seq<Value>, group: seq<Value>)
    requires forall i :: 0 <= i < |group| ==> !group[i].groupStart
    ensures GroupLoop(Popped(below + [GroupSentinel] + group)) == Popped(group)
  {
    var base := below + [GroupSentinel];
    var p := Popped(base + group);
    assert p[|group|] == GroupSentinel;
    GroupLoopStopsAtSentinel(p, |group|);
    assert p[..|group|] == Popped(group);
  }

  class ValueStack {
    var depth: int
    var stack: seq<Value>

    /** The zero ValueStack{} the program starts from. */
    constructor ()
      ensures depth == 0 && stack == []
    {
      depth := 0;
      stack := [];
    }

    /** doPush keeps the counter equal to the number of entries. */
    predicate Synced()
      reads this
    {
      depth == |stack|
    }

    /** The index Pop reads, stack[depth], lies inside the slice. */
    predicate PopIndexOk()
      reads this
    {
      0 <= depth < |stack|
    }

    function Empty(): (r: bool)
      reads this
      ensures Synced() ==> (r <==> depth == 0)
    {
      |stack| == 0
    }

    method DoPush(v: Value)
      modifies this
      ensures stack == old(stack) + [v] && depth == old(depth) + 1
      ensures old(Synced()) ==> Synced() && !PopIndexOk()
    {
      stack := stack + [v];
      depth := depth + 1;
    }

    method Push(eq: Query, neg: bool)
      modifies this
      ensures stack == old(stack) + [Value(Some(eq), neg, false)] && depth == old(depth) + 1
      ensures old(Synced()) ==> Synced() && !PopIndexOk()
    {
      DoPush(Value(Some(eq), neg, false));
    }

    /** Pop as written: it reads stack[depth], so it needs that index to be
        in range whenever the stack is not empty. */
    method Pop() returns (r: Result<Value, Fatal>)
      requires !Empty() ==> PopIndexOk()
      modifies this
      ensures old(Empty()) ==> r == Err(PopEmpty) && stack == old(stack) && depth == old(depth)
      ensures !old(Empty()) ==> r == Ok(old(stack[depth])) && stack == old(stack[..depth]) && depth == old(depth) - 1
    {
      if Empty() {
        return Err(PopEmpty);
      }
      var out := stack[depth];
      stack := stack[..depth];
      depth := depth - 1;
      return Ok(out);
    }

    /** Pop reads past the end of every non-empty stack that DoPush built. */
    lemma PopIndexFailsWhenSynced()
      requires Synced() && !Empty()
      ensures !PopIndexOk()
    {
    }

    /** Pop as evidently intended: it returns the most recent entry. */
    method PopTop() returns (r: Result<Value, Fatal>)
      requires Synced()
      modifies this
      ensures Synced()
      ensures old(stack) == [] ==> r == Err(PopEmpty) && stack == []
      ensures old(stack) != [] ==> r == Ok(old(stack[|stack| - 1])) && stack == old(stack[..|stack| - 1])
    {
      if Empty() {
        return Err(PopEmpty);
      }
      var out := stack[depth - 1];
      stack := stack[..depth - 1];
      depth := depth - 1;
      return Ok(out);
    }

    method StartGroup()
      modifies this
      ensures stack == old(stack) + [GroupSentinel] && depth == old(depth) + 1
      ensures old(Synced()) ==> Synced() && !PopIndexOk()
    {
      DoPush(GroupSentinel);
    }

    /** PopGroup over PopTop: the values above the nearest sentinel, most
        recent first; it consumes those values and the one that ended the loop. */
    method PopGroup() returns (r: Result<seq<Value>, Fatal>)
      requires Synced()
      modifies this
      ensures Synced()
      ensures old(stack) == [] ==> r == Err(PopEmpty) && stack == []
      ensures old(stack) != [] ==> r.Ok? && r.value == GroupLoop(Popped(old(stack)))
      ensures old(stack) != [] ==> stack == old(stack)[..|old(stack)| - |r.value| - 1]
    {
      ghost var s0 := stack;
      ghost var p := Popped(s0);
      var first := PopTop();
      if first.Err? {
        return Err(first.error);
      }
      var out: seq<Value> := [];
      var next := first.value;
      while !next.groupStart && !Empty()
        invariant Synced()
        invariant |out| < |p| == |s0|
        invariant stack == s0[..|s0| - |out| - 1]
        invariant next == p[|out|]
        invariant out == p[..|out|]
        invariant forall i :: 0 <= i < |out| ==> !p[i].groupStart
        decreases |stack|
      {
        ghost var top := s0[|s0| - |out| - 2];
        assert top == p[|out| + 1];
        out := out + [next];
        var popped := PopTop();
        next := popped.value;
        assert next == top;
      }
      if next.groupStart {
        GroupLoopStopsAtSentinel(p, |out|);
      } else {
        GroupLoopDropsLast(p);
      }
      return Ok(out);
    }

    /** Pushes Term(field, b) for the boolean the text spells, flipped when
        neg is set; the leaf itself is never negated. */
    method Boolean(field: string, value: string, neg: bool) returns (r: Outcome)
      modifies this
      ensures ParseBool(value).None? ==>
        r == Fail(BadBool(field, value)) && stack == old(stack) && depth == old(depth)
      ensures ParseBool(value).Some? ==>
        r == Pass && depth == old(depth) + 1 &&
        stack == old(stack) + [Value(Some(Query.Term(field, BoolVal(ParseBool(value).value != neg))), false, false)]
    {
      var b := ParseBool(value);
      if b.None? {
        return Fail(BadBool(field, value));
      }
      var v := b.value;
      if neg {
        v := !v;
      }
      Push(Query.Term(field, BoolVal(v)), false);
      return Pass;
    }

    method Exists(field: string, neg: bool)
      modifies this
      ensures stack == old(stack) + [Value(Some(Query.Exists(field)), neg, false)] && depth == old(depth) + 1
    {
      Push(Query.Exists(field), neg);
    }

    method Number(field: string, value: string, neg: bool) returns (r: Outcome)
      modifies this
      ensures Atoi(value).None? ==>
        r == Fail(BadInt(field, value)) && stack == old(stack) && depth == old(depth)
      ensures Atoi(value).Some? ==>
        r == Pass && depth == old(depth) + 1 &&
        stack == old(stack) + [Value(Some(Query.Term(field, IntVal(Atoi(value).value))), neg, false)]
    {
      var i := Atoi(value);
      if i.None? {
        return Fail(BadInt(field, value));
      }
      Push(Query.Term(field, IntVal(i.value)), neg);
      return Pass;
    }

    method Term(field: string, term: string, neg: bool)
      modifies this
      ensures stack == old(stack) + [Value(Some(Query.Term(field, StrVal(term))), neg, false)] && depth == old(depth) + 1
    {
      Push(Query.Term(field, StrVal(term)), neg);
    }

    /** A bad value is reported before a bad operation code. */
    method Range(field: string, value: string, op: RangeOp, neg: bool) returns (r: Outcome)
      modifies this
      ensures RangeBound(value).None? ==>
        r == Fail(BadRangeValue(field, value)) && stack == old(stack) && depth == old(depth)
      ensures RangeBound(value).Some? && RangeCmp(op).None? ==>
        r == Fail(BadRangeOp(op, field, value)) && stack == old(stack) && depth == old(depth)
      ensures RangeBound(value).Some? && RangeCmp(op).Some? ==>
        r == Pass && depth == old(depth) + 1 &&
        stack == old(stack) + [Value(Some(RangeQ(field, RangeCmp(op).value, RangeBound(value).value)), neg, false)]
    {
      var v := RangeBound(value);
      if v.None? {
        return Fail(BadRangeValue(field, value));
      }
      var cmp := RangeCmp(op);
      if cmp.None? {
        return Fail(BadRangeOp(op, field, value));
      }
      Push(RangeQ(field, cmp.value, v.value), neg);
      return Pass;
    }

    method Match(field: string, text: string, neg: bool)
      modifies this
      ensures stack == old(stack) + [Value(Some(Query.Match(field, text)), neg, false)] && depth == old(depth) + 1
    {
      Push(Query.Match(field, text), neg);
    }

    method Phrase(field: string, phrase: string, neg: bool)
      modifies this
      ensures stack == old(stack) + [Value(Some(Query.Phrase(field, phrase)), neg, false)] && depth == old(depth) + 1
    {
      Push(Query.Phrase(field, phrase), neg);
    }
  }

  /** Pop as written fails on the first value ever pushed: the index it
      reads is past the end. */
  method PushThenPopIndex(eq: Query, neg: bool) returns (inRange: bool)
    ensures !inRange
  {
    var vs := new ValueStack();
    vs.Push(eq, neg);
    inRange := 0 <= vs.depth < |vs.stack|;
  }

  /** PopTop hands back what Push stored. */
  method PushThenPopTop(eq: Query, neg: bool) returns (r: Result<Value, Fatal>)
    ensures r == Ok(Value(Some(eq), neg, false))
  {
    var vs := new ValueStack();
    vs.Push(eq, neg);
    r := vs.PopTop();
  }
}
