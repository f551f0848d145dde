# ts-pattern runtime matcher, modelled in Dafny

This project models the runtime half of ts-pattern, the part that `src/index.ts`
implements:

- `matchPattern`, which decides whether a value matches a pattern;
- `selectWithPattern`, which gathers the values captured by `select(key)`
  markers;
- the builder returned by `match(value)`: `with`, `when`, `otherwise`, `run`.

Patterns are a datatype. It has one case for each kind of pattern the matcher
tells apart:

- the wildcards `__`, `__.string`, `__.number` and `__.boolean`;
- `select(key)`, `when(predicate)` and `not(pattern)`;
- primitive literals;
- array, Map, Set and plain-object patterns.

JavaScript values are a second datatype. Numbers are integers plus an explicit
NaN. `typeof`, strict equality, `Map.prototype.get` and property access by
string key are written out in `JsValues`. That includes `typeof null` being
"object" and array index keys being decimal strings.

Modules:

- `JsValues` (`js_values.dfy`): values, `typeof`, `isObject`, strict equality
  and property reads. Index keys `"0"`, `"1"`, … are proved to be a bijection
  with the indices.
- `Matcher` (`matcher.dfy`): the pattern datatype and `Matches`, the matcher.
  Its rules are tried in the source's order: wildcards and `select`, guards,
  `not`, the list rule, the `typeof` check, tuples, Map, Set, the object rule,
  and strict equality last. Lemmas state each rule on its own inputs.
- `Selector` (`selector.dfy`): `Selection`, a function that specifies what is
  selected. `SelectWith` is an imperative method whose loops perform the reduces
  of the source; it is proved to compute `Selection`. Lemmas describe what the
  list rule gathers, what `Object.assign` merging keeps, and which keys can
  appear at all.
- `Chain` (`chain.dfy`): the builder as an immutable value holding the subject
  and the registered clauses. Each clause is a test, a selection function and a
  handler. `Run` returns the first passing clause's handler result, or
  `Err(NoMatch)` where the source throws.
- `Findings` (`findings.dfy`): the list-selection reduce as written. It shows
  the TypeError that inherited property names cause (see below).

## Model

| member | source | states |
|---|---|---|
| JsValues.IsObject | src/index.ts:148-149 | No contract of its own. `JsValues.IsObjectMeansTypeofObject` states what it means. |
| JsValues.IsObjectMeansTypeofObject | src/index.ts:148-149 | `isObject` holds exactly for the values whose `typeof` is "object", except null. |
| JsValues.IsArray | src/index.ts:151 | No contract of its own. `JsValues.ArraysAreObjects` relates it to `isObject`. |
| JsValues.ArraysAreObjects | src/index.ts:151 | Every array satisfies `isObject`, and its `typeof` is "object". |
| JsValues.ParseIndexKey | src/index.ts:221-223 | The key `Object.keys` lists for array index i reads back as index i. |
| JsValues.IndexKeyOfParse | src/index.ts:221-223 | Every canonical index string is the key of the index it denotes, so keys and indices are in one-to-one correspondence. |
| JsValues.PropIndex | src/index.ts:220-225 | Reading an array at the string key of index i gives the element at i. |
| Matcher.Matches | src/index.ts:177-227 | No contract of its own: it is the matcher, with the rules tried in the source's order. The `Matcher` lemmas below state each rule. |
| Matcher.IsListPattern | src/index.ts:172-174 | No contract of its own. `Matcher.ListRule` and `Matcher.ListIsNotOneTuple` state its effect. |
| Matcher.WildcardsMatch | src/index.ts:180-186 | `__` and `select(k)` accept every value. `__.string` and `__.boolean` accept exactly strings and booleans. `__.number` accepts exactly the numbers other than NaN. |
| Matcher.NotInverts | src/index.ts:188 | `not(p)` accepts exactly the values p rejects, and `not(not(p))` accepts exactly what p accepts. |
| Matcher.ListRule | src/index.ts:189-190 | A one-element array pattern accepts an array iff every element matches its sub-pattern, whatever the length; the empty array always matches. |
| Matcher.ListIsNotOneTuple | src/index.ts:172-174 | `[__.number]` accepts the array [1, 2]; a two-element tuple of numbers rejects [1]. |
| Matcher.TupleRule | src/index.ts:194-198 | An array pattern of any other length accepts an array iff the lengths are equal and each element matches the sub-pattern at its position. |
| Matcher.TupleLengthMismatch | src/index.ts:195-197 | A two-element tuple pattern rejects every array whose length is not 2. |
| Matcher.MapExtraKeys | src/index.ts:200-204 | A Map pattern tests only the keys it lists: adding entries under other keys to the Map leaves the verdict unchanged. |
| Matcher.SetRules | src/index.ts:206-217 | Set pattern against a Set: no entries accepts only the empty set. One literal entry is a membership test. One typed wildcard requires every member to match it. Two or more entries must each be members. |
| Matcher.SetWildcardIsListRule | src/index.ts:212-214 | A singleton typed-wildcard Set pattern accepts a Set iff the list rule accepts an array listing its members, in any order. |
| Matcher.AnyIsNotASetWildcard | src/index.ts:213-215 | A Set pattern holding only `__` is a membership test, not a wildcard test, and it rejects every Set. |
| Matcher.NaNSetMember | src/index.ts:215 | A Set pattern holding the NaN literal accepts a Set iff NaN is a member, although NaN is never strictly equal to itself. |
| Matcher.ObjectRule | src/index.ts:220-225 | A plain-object pattern accepts a plain object iff the property under each listed key matches the pattern given for that key. |
| Matcher.ObjectExtraKeys | src/index.ts:220-225 | A plain-object pattern tests only its own keys: adding properties under other keys leaves the verdict unchanged. |
| Matcher.ArrayPatternOnObject | src/index.ts:220-225 | An array pattern against a plain object tests the object's properties at the index keys "0", "1", … |
| Matcher.MapSetPatternsOnObjects | src/index.ts:200-226 | A Map or Set pattern against a plain object reaches the object rule with no own keys and accepts. Against null it fails the strict equality. |
| Matcher.TypeOfMismatch | src/index.ts:192 | Once the wildcard, `select`, guard, `not` and list rules do not apply, any pattern whose `typeof` differs from the value's rejects it, literal or structure alike. |
| Matcher.StructuresRejectPrimitives | src/index.ts:192 | Array, Map, Set and plain-object patterns reject every primitive except null. |
| Matcher.LiteralTypeMismatch | src/index.ts:192 | A value whose `typeof` differs from the literal's never matches it. |
| Matcher.LiteralRule | src/index.ts:226 | A primitive literal accepts exactly the equal value, and only when the literal is not NaN. |
| Matcher.NaNNeverEqual | src/index.ts:226 | The NaN literal matches no value at all. |
| Matcher.NotWellFormed | src/index.ts:207-221 | Sequences no JavaScript pattern can be are not `WellFormed`: a Set holding `__.string` twice, an object with a repeated key, and an object listing "b" before "1". Fields listed in `Object.keys` order are well-formed. |
| Selector.Selection | src/index.ts:229-262 | No contract of its own: it is the specification of the selector. `Selector.SelectWith` computes it, and `Selector.ListSelection`, `Selector.TupleSelection` and `Selector.ObjectSelection` characterise it. |
| Selector.SelectWith | src/index.ts:229-262 | The imperative selection computes exactly the specification `Selection` of the pattern and the value. |
| Selector.SelectList | src/index.ts:234-242 | The list reduce turns the per-element selections into the map from each captured key to the list of values captured under it, in element order. |
| Selector.AppendCaptures | src/index.ts:238-241 | Folding one element's selections into the accumulator appends each captured value to the list kept under its key and leaves the other keys alone. |
| Selector.SelectTuple | src/index.ts:244-251 | For a tuple no longer than the value, the reduce merges the positional selections with `Object.assign`, in order. |
| Selector.SelectIndexKeys | src/index.ts:253-259 | For an array pattern against a non-array object, the reduce merges the selections taken at each index key, in order. |
| Selector.SelectFields | src/index.ts:253-259 | For an object pattern, the reduce merges the selections taken at each listed key, in order. |
| Selector.SelectBindsValue | src/index.ts:232 | `select(k)` binds exactly k, to the whole value. |
| Selector.GatherIsCaptures | src/index.ts:237-242 | After the list reduce, the list kept under k is the sequence of values captured under k, in element order. k is present iff some element captured it. |
| Selector.ListSelection | src/index.ts:234-242 | For a one-element array pattern over an array, k is selected iff some element's selection binds k; its value is the array of those captures in element order. An empty array selects nothing. |
| Selector.MergeAllKeys | src/index.ts:246-250 | A key is in the merge of several selections iff one of them binds it. |
| Selector.MergeAllLastWins | src/index.ts:246-250 | In an `Object.assign` merge, a key takes the value from the last selection that binds it. |
| Selector.TupleSelection | src/index.ts:244-251 | A tuple pattern longer than the value selects nothing. Otherwise k is selected iff some position's selection binds it, and the last such position supplies its value. |
| Selector.ObjectSelection | src/index.ts:253-259 | An object pattern selects k iff the selection of some listed field binds it, and the last such field supplies its value. |
| Selector.SelectionKeys | src/index.ts:229-262 | Every selected key is the key of some `select` marker inside the pattern. |
| Selector.NoSelectNoBindings | src/index.ts:261 | A pattern with no `select` marker selects nothing on any value. |
| Chain.Match | src/index.ts:58-59 | `match(v)` starts a builder for v with no clauses. |
| Chain.With | src/index.ts:76-97 | `with` keeps the subject and the clauses already registered and appends one clause. The new clause's test holds iff the pattern matches and every predicate holds. It selects with the pattern and calls the given handler. |
| Chain.When | src/index.ts:99-110 | `when` appends a clause whose test is the predicate and whose selection is always empty. |
| Chain.Find | src/index.ts:123 | `patterns.find` returns the first clause whose test passes, or nothing when none passes. |
| Chain.Run | src/index.ts:122-135 | `run` fails with NoMatch iff no clause passes. Otherwise it returns the first passing clause's handler applied to the subject and to that clause's selection of the subject. |
| Chain.RunAppend | src/index.ts:122-135 | Appending any clause keeps a successful run unchanged. After a failed run, the appended clause decides: its handler with its selection if its test passes, NoMatch otherwise. |
| Chain.WithAfterRun | src/index.ts:76-135 | Appending a `with` clause never changes a run that already succeeds. A failing run then succeeds iff the new pattern and predicates accept the subject, and it uses the new handler with the new selection. |
| Chain.WhenAfterRun | src/index.ts:99-135 | Appending a `when` clause never changes a run that already succeeds. A failing run then succeeds iff the predicate holds, and its handler gets an empty selection. |
| Chain.OtherwiseTotal | src/index.ts:112-120 | `otherwise` always produces a result. It equals `run` when some clause passes, and otherwise it is the default handler applied to the subject and an empty selection. |
| Chain.Otherwise | src/index.ts:112-120 | No contract of its own. `Chain.OtherwiseTotal` states what it returns. |
| Chain.FirstRegisteredWins | src/index.ts:122-123 | When two `with` clauses both accept the subject, the first one registered supplies the result. |
| Chain.NoClauseMatched | src/index.ts:122-135 | `match(2).with(1, h).run()` fails with NoMatch, and `.otherwise(d)` on the same builder returns `d(2, {})`. |
| Chain.PairWithSelection | src/index.ts:122-135 | A tuple of a `{status: 'loading'}` pattern and a `{type: 'success', data: select('d')}` pattern accepts the matching pair, and the handler gets the pair together with `{d: 'X'}`. |
| Findings.GatherAsWritten | src/index.ts:237-241 | No contract of its own: the list reduce as written. `Findings.AsWrittenThrowsOnInherited` states when it throws. |
| Findings.AsWrittenThrowsOnInherited | src/index.ts:237-241 | The list reduce as written throws iff some element captures a key that every object inherits from `Object.prototype`. Otherwise it yields the intended gathering. |
| Findings.ConstructorCaptureThrows | src/index.ts:239 | One element capturing under "constructor" makes the reduce as written throw, while the intended fold gathers `{constructor: [1]}`. |

Where the library's documentation and `src/index.ts` disagree, the model
follows the code:

- When nothing is selected, the handler receives `{}` as its selections. It
  does not receive the matched value instead.
- A list pattern over an empty array selects `{}`, not `{k: []}`.
- Map patterns contribute no selections. They have no own keys for the object
  rule of `selectWithPattern` to walk.
- At runtime the handler is called as `handler(value, selections)`.
  `src/types/Match.ts:38-41` declares the parameters in the opposite order,
  `(selections, value)`. `Chain.Clause.handler` takes the runtime order.
- Tuple selection applies when the pattern is no longer than the value
  (`pattern.length <= value.length`). Matching still requires equal lengths.

## Left out

- Multi-pattern `with` (`.with(p1, p2, h)`) is not modelled. `Chain.With` takes its predicates as functions, so a pattern cannot be passed in their place. At runtime `src/index.ts:86` calls p2 as a predicate, which throws a TypeError inside `run` whenever p1 matches the subject. `oneOf` has no runtime case at all.
- Patterns hold their Map entries, Set entries and object fields as sequences. Only the sequences `Matcher.WellFormed` accepts stand for a JavaScript pattern: no Map key, Set entry or field name twice, and fields in `Object.keys` order, with index-like keys first in ascending order. The lemmas hold for every sequence. On sequences that are not well-formed they describe the model, not any JavaScript pattern.
- `exhaustive` returns a builder over the same clauses, so it is the builder value itself and gets no separate member.
- The type-level machinery (`src/types/*.ts`: `InvertPattern`, `FindSelected`, the exhaustiveness check) is not part of this model.
- The error message: the source renders the value with `JSON.stringify`, and the model reports only `Err(NoMatch)`.
- Predicates and handlers are total, pure Dafny functions. Their side effects and exceptions are not modelled, and a truthy predicate result becomes a boolean.
- Numbers are integers plus NaN. Fractions, infinities and -0 are not modelled, and neither are symbols, bigints or functions as subject values.
- Objects are compared structurally, not by reference. Literal patterns and Map-pattern keys are therefore limited to primitives, and a Set-pattern entry that is a structured pattern is never a member of the Set.
- Property reads see only a plain object's own properties, an array's elements and `length`, and a Map's or Set's `size`. Members inherited from prototypes such as `toString` read as undefined, and the 2^32 - 2 bound on array indices is not modelled.
- The `__` object is defined outside `src/index.ts`. The model assumes that its values are `__.string`, `__.number` and `__.boolean`, and that `__` itself is not among them.
- Selection through `not(p)` and through wildcards contributes nothing. In JavaScript the object rule would walk the marker object's own keys and read properties such as `__pattern` off the value.
- Plain-object patterns whose keys spell the marker fields (`__patternKind`, `__when`, `__key`) are not modelled. Neither is a `__proto__` key passed through `Object.assign`.

## Findings

| source | as written | input that shows it | evidently intended | confidence | as-written member | corrected member |
|---|---|---|---|---|---|---|
| src/index.ts:239 | `(acc[key] \|\| []).concat(...)` on an accumulator created as `{}` also finds the members inherited from `Object.prototype`. These are truthy and have no `concat`, so a TypeError is thrown. | `match([1]).with([select('constructor')], h).run()`: the single element selects `{constructor: 1}` | the selections `{constructor: [1]}` | high, not executed | Findings.GatherAsWritten | Selector.Gather |

`Findings.ConstructorCaptureThrows` exhibits the failing input.
`Findings.AsWrittenThrowsOnInherited` characterises every input that fails.
`Selector.GatherIsCaptures` proves the intended property of the corrected fold,
which the rest of the model uses.
