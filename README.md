# go_es_query_parser: the two stack compilers, in Dafny

The program turns a boolean search DSL into an Elasticsearch bool-query tree.
Its core is two sequential stacks in `utils/`:

* **ValueStack** (`utils/value_stack.go`) holds leaf values: a query, a negate flag, and a
  group-start flag that marks sentinels pushed by `StartGroup`. Typed pushers
  (`Boolean`, `Number`, `Range`, `Term`, `Exists`, `Match`, `Phrase`) read one literal and
  push one leaf. `PopGroup` drains values down to the nearest sentinel.
* **QueryStack** (`utils/query_stack.go`) holds bool-query levels. Each level has `must`,
  `mustNot` and `should` buckets, an operator and a negate flag. `Pop` removes the top
  level and files it in its parent by a four-way And/Or × negate table.

The model follows the code's form:

* `Values.ValueStack`, `Queries.Level` (Go's `utils.Query`) and `Queries.QueryStack` are
  classes whose methods update their fields. Each method states its whole new state.
* The literal checks are pure functions in `Literals`: `strconv.ParseBool`, `strconv.Atoi`
  and the `SimpleDate` pattern.
* The nesting table is the pure function `Queries.Nesting`.
* `elastic.Query` is the datatype `Elastic.Query`. `Elastic.Eval` is the engine's
  documented matching rule for bool queries. It is a reference semantics used to show that
  the table's rewrite of a negated Or group keeps its meaning.
* Every `log.Fatal` is an error result: `Values.Fatal`, `Queries.Fatal`. The error names
  the field and the value that the log message names.
* An index that Go would check at run time (a panic) is a `requires`.

Files:

* `wrappers.dfy`: `Option`, `Result`.
* `elastic.dfy`: queries and their reference semantics.
* `literals.dfy`: literal parsing.
* `value_stack.dfy`: the value stack.
* `query_stack.dfy`: the level stack.

Behaviour of the code that is easy to misread, as the model states it:

* `PopGroup` returns values most recent first. It does not restore their original order.
* A negated Or group becomes `mustNot(bool{should: [group]})` in its parent. There is no
  `should` clause wrapped around a `mustNot`.
* `QueryStack.Push` ignores its operator argument. Every new level is And and not negated,
  and no default operator is configured anywhere in utils/ or main.go.
* Popping the base level does not put it back on the stack.
* A plain Or group goes to its parent's `should` bucket. Once the parent has a `must`
  clause, the engine treats `should` clauses as optional (`Elastic.ShouldIgnoredBesideMust`).
  So, in query context, a group filed there no longer restricts what the parent matches.

## Model

| member | source | states |
|---|---|---|
| `Literals.ParseBool` | utils/value_stack.go:81-84 | accepts exactly `1 t T TRUE true True` as true and `0 f F FALSE false False` as false; every other string is an error |
| `Literals.Atoi` | utils/value_stack.go:97-100 | a result exists only for an optional sign followed by at least one ASCII digit; it lies within Go's 64-bit int range and is negative only after `-` |
| `Literals.AtoiItoa` | utils/value_stack.go:97 | Atoi reads back every 64-bit int Itoa writes |
| `Literals.AtoiReadsDecimal` | utils/value_stack.go:97-100 | every well-formed in-range decimal is accepted with its value: an optional sign agreeing with the value, any leading zeros, then the digits (so `+007` is 7 and `-0` is 0) |
| `Literals.AtoiRejectsOverflow` | utils/value_stack.go:97-100 | every decimal outside Go's 64-bit int range is an error, whatever its sign and its leading zeros (so `+9223372036854775808` and `09223372036854775808` are rejected) |
| `Literals.AtoiRejects` | utils/value_stack.go:97-100 | the empty string, a lone sign and any string with a non-digit after its first character are errors |
| `Literals.ContainsDate` | utils/value_stack.go:13 | true iff some substring is `dddd/dd/dd` with ASCII digits (unanchored match) |
| `Elastic.ShouldIgnoredBesideMust` | utils/query_stack.go:78-80 | once a bool query has a must clause, its should clauses do not change what it matches, so a plain Or group filed in such a parent's should is optional |
| `Elastic.SingleShouldMatchesClause` | utils/query_stack.go:77 | a bool query with one `should` clause and nothing else matches exactly what that clause matches |
| `Values.RangeBound` | utils/value_stack.go:113-119 | a value containing a date stays the same string; otherwise the bound is the integer Atoi reads; an error iff neither applies |
| `Values.RangeCmp` | utils/value_stack.go:121-132 | codes 0..3 select lt, lte, gt, gte one-to-one; every other code is an error |
| `Values.RangeBoundItoa` | utils/value_stack.go:109-119 | any 64-bit integer written in decimal is taken as an integer bound with that value, never as a date |
| `Values.GroupLoop` | utils/value_stack.go:68-78 | the PopGroup loop over the popped values: its result is a strict prefix of them and holds no sentinel |
| `Values.GroupLoopStopsAtSentinel` | utils/value_stack.go:72 | the loop returns exactly the values popped before the first sentinel |
| `Values.GroupLoopDropsLast` | utils/value_stack.go:72-75 | without a sentinel the loop returns all popped values but the last, so the value whose pop empties the stack is dropped |
| `Values.PopGroupReturnsGroup` | utils/value_stack.go:59-78 | after StartGroup and pushes of leaves, PopGroup returns exactly those leaves, most recent first |
| `Values.ValueStack.constructor` | utils/value_stack.go:30-33 | the zero stack: no entries, depth 0 |
| `Values.ValueStack.Empty` | utils/value_stack.go:64-66 | on a stack where depth matches the length, empty iff depth is 0 |
| `Values.ValueStack.DoPush` | utils/value_stack.go:35-41 | appends exactly the given value and increments depth; afterwards depth equals the length, so the index Pop reads is out of range |
| `Values.ValueStack.Push` | utils/value_stack.go:43-45 | appends one leaf with the query, the negate flag and no group flag; depth + 1 |
| `Values.ValueStack.Pop` | utils/value_stack.go:47-57 | as written: fatal on an empty stack; otherwise returns stack[depth], truncates to stack[:depth] and decrements depth, which needs depth < len |
| `Values.ValueStack.PopIndexFailsWhenSynced` | utils/value_stack.go:52 | on every non-empty stack the pushes built, the index Pop reads is past the end |
| `Values.ValueStack.PopTop` | utils/value_stack.go:47-57 | corrected Pop: fatal on an empty stack, else returns the last entry and removes exactly it |
| `Values.ValueStack.StartGroup` | utils/value_stack.go:59-62 | appends one sentinel `{nil, false, true}`; depth + 1 |
| `Values.ValueStack.PopGroup` | utils/value_stack.go:68-78 | fatal on an empty stack; otherwise returns GroupLoop of the pop order and removes exactly the returned values plus the one that ended the loop |
| `Values.ValueStack.Boolean` | utils/value_stack.go:80-90 | a string ParseBool rejects is fatal, naming field and value, and pushes nothing; otherwise pushes Term(field, parsed value xor neg) with negate false |
| `Values.ValueStack.Exists` | utils/value_stack.go:92-94 | pushes Exists(field) with neg passed through |
| `Values.ValueStack.Number` | utils/value_stack.go:96-103 | a string Atoi rejects is fatal, naming field and value; otherwise pushes Term(field, int) with neg passed through |
| `Values.ValueStack.Term` | utils/value_stack.go:105-107 | pushes Term(field, string) with neg passed through |
| `Values.ValueStack.Range` | utils/value_stack.go:109-135 | a bad value is fatal before a bad op code is; otherwise pushes one RangeQ(field, RangeCmp(op), RangeBound(value)) with neg passed through |
| `Values.ValueStack.Match` | utils/value_stack.go:137-139 | pushes Match(field, text) with neg passed through |
| `Values.ValueStack.Phrase` | utils/value_stack.go:141-143 | pushes Phrase(field, phrase) with neg passed through |
| `Values.PushThenPopIndex` | utils/value_stack.go:43-52 | after one push on the zero stack the index Pop reads is out of range |
| `Values.PushThenPopTop` | utils/value_stack.go:43-57 | with the corrected pop, a push followed by a pop returns the pushed leaf |
| `Queries.Level.NewLevel` | utils/query_stack.go:38-40 | an empty bool query, And, not negated |
| `Queries.Level.Must` | utils/query_stack.go:21-23 | appends to `must` only; the other buckets, the operator and the flag are unchanged |
| `Queries.Level.MustNot` | utils/query_stack.go:25-27 | appends to `mustNot` only; everything else is unchanged |
| `Queries.Level.Should` | utils/query_stack.go:29-31 | appends to `should` only; everything else is unchanged |
| `Queries.Nesting` | utils/query_stack.go:63-85 | the table: And → must, negated And → mustNot, Or → should, negated Or → mustNot gets Bool(should: [child]); a negated group always goes to mustNot; any other operator code is fatal |
| `Queries.NestingKeepsMeaning` | utils/query_stack.go:64-81 | the clause the table files matches exactly the documents the child matches |
| `Queries.QueryStack.constructor` | utils/query_stack.go:33-36 | the zero stack: nil slice, depth 0 |
| `Queries.QueryStack.Current` | utils/query_stack.go:42-47 | creates one fresh base level when the slice is nil; returns stack[depth], which is the last level |
| `Queries.QueryStack.Push` | utils/query_stack.go:49-55 | whatever the operator argument, appends one fresh And, non-negated level (after a base level when the slice was nil) and increments depth; keeps depth == len - 1 |
| `Queries.QueryStack.Nest` | utils/query_stack.go:63-85 | files a popped level in the current level per Nesting: exactly one clause in exactly one bucket, or fatal with the parent untouched |
| `Queries.QueryStack.Pop` | utils/query_stack.go:57-89 | as written: removes exactly the last level, keeps the order of the rest and depth == len - 1; files the popped level in the new top only when the new depth is above 0, and changes no other level |
| `Queries.QueryStack.PopAndNest` | utils/query_stack.go:57-89 | corrected Pop: files the popped level in its parent whenever one remains, the base level included |
| `Queries.TopLevelGroupIsDropped` | utils/query_stack.go:49-89 | a group opened and closed at the top level: its clause never reaches the base level, which stays empty |
| `Queries.NegatedOrGroupIsFiled` | utils/query_stack.go:57-89 | a negated Or group closed by Pop above the top level reaches its parent's mustNot as exactly one bool query whose only should clause is the group |
| `Queries.TopLevelGroupIsNested` | utils/query_stack.go:49-89 | with PopAndNest the same group lands in the base level's must |

## Left out

- `main.go`: flag parsing, usage text, rendering and JSON output are I/O around the stacks.
- The grammar package and the parser driver are not part of this model. The order in which the parser fires events is therefore unknown to the model.
- Internals of the olivere/elastic library are not modelled. Queries are values, and bucket calls are sequence appends. Range queries keep one operator and one bound instead of the library's from/to/include fields.
- The sharing of one `*elastic.BoolQuery` between a popped level and its parent is not modelled. A popped level is not changed afterwards, so value semantics agree with the code.
- The text of the fatal messages is not modelled. Errors keep only the field, value and code that the messages name. A fatal call ends the Go process; the model returns the state as it stands at that call.
- `Queries.QueryStack.Pop`: Go panics on an index out of range in two states, and the model excludes both by a `requires`: the zero stack (nil slice) and the stack left after the base level was popped (empty slice, depth -1). The frame-stack underflow these states represent is not an error result.
- `Queries.QueryStack.Current`: the state after the base level was popped (empty slice, depth -1) is excluded by a `requires`. In Go it panics on `stack[-1]`.
- `Values.ValueStack.PopGroup`: it runs over `PopTop`, the corrected pop. Over `Pop` as written, every call on a non-empty stack reads out of range (first finding).
- `Literals.Atoi`: Go's int is taken to be 64 bits wide. Overflow is only an upper and lower bound on the value; the machine arithmetic is not modelled.
- The `-filter` mode of main.go wraps the output in a bool filter. Matching in filter context is not modelled: `Elastic.Eval` gives query-context matching, where `should` clauses beside a `must` are optional.
- Features the code does not have are not modelled: default field and operator configuration, explicit And/Or conflicts, RFC3339 dates and `~` windows.

## Findings

| source | as written | input that shows it | evidently intended | confidence | as-written member | corrected member |
|---|---|---|---|---|---|---|
| utils/value_stack.go:52 | Pop reads `stack[depth]`, but doPush keeps `depth == len(stack)` | one `Push`, then `Pop` (or `PopGroup`): the index equals the length | read and drop the last entry, `stack[depth-1]` | high, not executed | `Values.PushThenPopIndex` | `Values.ValueStack.PopTop` |
| utils/query_stack.go:63 | the popped level is filed in its parent only when the new depth is above 0 | `Push`, `Current().Must(t)`, `Pop`: the base level stays empty | file the popped level whenever a parent remains (new depth at least 0) | low, not executed (the parser may rely on the base level being skipped) | `Queries.TopLevelGroupIsDropped` | `Queries.TopLevelGroupIsNested` |
