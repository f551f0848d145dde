/** Patterns and the structural matcher (`matchPattern`). */
module Matcher {
  import opened JsValues

  /** The wildcard constants `__`, `__.string`, `__.number`, `__.boolean`. */
  datatype Wildcard = AnyValue | AnyString | AnyNumber | AnyBoolean

  /** A pattern. The combinators `select(key)`, `when(predicate)` and
      `not(pattern)` build `Select`, `Guard` and `Not`; every other pattern is
      a literal or a structure written by the caller. Object-like patterns
      list their entries as sequences; `WellFormed` says which sequences a
      JavaScript Map, Set or object can be. */
  datatype Pattern =
    | Wild(kind: Wildcard)
    | Select(key: string)
    | Guard(test: Value -> bool)
    | Not(inner: Pattern)
    | Lit(literal: Primitive)
    | ArrayPat(items: seq<Pattern>)
    | MapPat(entries: seq<(Primitive, Pattern)>)
    | SetPat(members: seq<Pattern>)
    | ObjectPat(fields: seq<(string, Pattern)>)

  /** `isListPattern`: an array pattern of exactly one element. */
  predicate IsListPattern(p: Pattern) {
    p.ArrayPat? && |p.items| == 1
  }

  /** `Object.values(__).includes(p)`: the typed wildcards, which are the
      values of the `__` object's own properties (`__` itself is not one). */
  predicate IsWildcardConstant(p: Pattern) {
    p.Wild? && p.kind != AnyValue
  }

  /** `isObject(pattern)` for the patterns that reach the object rule. */
  predicate IsObjectPattern(p: Pattern) {
    p.ArrayPat? || p.MapPat? || p.SetPat? || p.ObjectPat?
  }

  /** `typeof pattern` for the patterns that reach the type check. */
  function PatternTypeOf(p: Pattern): string {
    if p.Lit? then TypeOf(p.literal) else "object"
  }

  /** What a wildcard constant accepts. */
  predicate MatchesWildcard(w: Wildcard, v: Value) {
    match w
    case AnyValue => true
    case AnyString => TypeOf(v) == "string"
    case AnyBoolean => TypeOf(v) == "boolean"
    case AnyNumber => TypeOf(v) == "number" && !v.NaN?
  }

  /** `value.has(entry)` for an entry of a Set pattern: only a literal can be
      a member of the subject; a pattern object never is. */
  predicate HasMember(members: set<Value>, entry: Pattern) {
    entry.Lit? && entry.literal in members
  }

  /** The Set-pattern rule, for a Set pattern against a Set value. */
  predicate MatchesSet(entries: seq<Pattern>, members: set<Value>) {
    if |entries| == 0 then members == {}
    else if |entries| == 1 then
      if IsWildcardConstant(entries[0]) then
        // `matchPattern([entry])([...value.values()])`: the list rule
        forall m | m in members :: MatchesWildcard(entries[0].kind, m)
      else HasMember(members, entries[0])
    else forall i | 0 <= i < |entries| :: HasMember(members, entries[i])
  }

  /** `matchPattern(p)(v)`, its rules tried in the source's order. */
  predicate Matches(p: Pattern, v: Value)
    decreases p
  {
    if p.Wild? then MatchesWildcard(p.kind, v)
    else if p.Select? then true
    else if p.Guard? then p.test(v)
    else if p.Not? then !Matches(p.inner, v)
    else if IsListPattern(p) && IsArray(v) then
      forall i | 0 <= i < |v.elems| :: Matches(p.items[0], v.elems[i])
    else if PatternTypeOf(p) != TypeOf(v) then false
    else if p.ArrayPat? && IsArray(v) then
      |p.items| == |v.elems| && forall i | 0 <= i < |p.items| :: Matches(p.items[i], v.elems[i])
    else if v.MapV? && p.MapPat? then
      forall i | 0 <= i < |p.entries| :: Matches(p.entries[i].1, MapGet(v.entries, p.entries[i].0))
    else if v.SetV? && p.SetPat? then
      MatchesSet(p.members, v.members)
    else if IsObject(v) && IsObjectPattern(p) then
      // `Object.keys(pattern)`: the indices of an array pattern, the fields
      // of an object pattern, nothing for a Map or Set pattern
      if p.ArrayPat? then forall i | 0 <= i < |p.items| :: Matches(p.items[i], Prop(v, IndexKey(i)))
      else if p.ObjectPat? then forall i | 0 <= i < |p.fields| :: Matches(p.fields[i].1, Prop(v, p.fields[i].0))
      else true
    else p.Lit? && StrictEquals(v, p.literal)
  }

  // ---------------------------------------------------------------------
  // Which patterns stand for a JavaScript pattern

  /** Two Set-pattern entries that are the same JavaScript value. */
  predicate SameEntry(a: Pattern, b: Pattern) {
    (a.Lit? && b.Lit? && a.literal == b.literal) || (a.Wild? && b.Wild? && a.kind == b.kind)
  }

  /** A Set holds each value once. */
  predicate DistinctEntries(members: seq<Pattern>) {
    forall i, j | 0 <= i < j < |members| :: !SameEntry(members[i], members[j])
  }

  /** A Map holds each key once. */
  predicate DistinctKeys(entries: seq<(Primitive, Pattern)>) {
    forall i, j | 0 <= i < j < |entries| :: entries[i].0 != entries[j].0
  }

  /** An object holds each property name once. */
  predicate DistinctNames(fields: seq<(string, Pattern)>) {
    forall i, j | 0 <= i < j < |fields| :: fields[i].0 != fields[j].0
  }

  /** The order `Object.keys` lists an object's own keys in: the index-like
      keys first, ascending, then the others. */
  predicate InEnumerationOrder(fields: seq<(string, Pattern)>) {
    forall i, j | 0 <= i < j < |fields| ::
      IsCanonicalIndex(fields[j].0) ==>
        IsCanonicalIndex(fields[i].0) && DigitsValue(fields[i].0) < DigitsValue(fields[j].0)
  }

  /** The patterns a JavaScript program can write: Set entries, Map keys and
      field names without repeats, and fields listed as `Object.keys` lists
      them, at every level. */
  predicate WellFormed(p: Pattern)
    decreases p
  {
    if p.Not? then WellFormed(p.inner)
    else if p.ArrayPat? then forall i | 0 <= i < |p.items| :: WellFormed(p.items[i])
    else if p.MapPat? then
      DistinctKeys(p.entries) && forall i | 0 <= i < |p.entries| :: WellFormed(p.entries[i].1)
    else if p.SetPat? then
      DistinctEntries(p.members) && forall i | 0 <= i < |p.members| :: WellFormed(p.members[i])
    else if p.ObjectPat? then
      DistinctNames(p.fields) && InEnumerationOrder(p.fields) &&
      forall i | 0 <= i < |p.fields| :: WellFormed(p.fields[i].1)
    else true
  }

  // ---------------------------------------------------------------------
  // Properties of the matcher

  /** `__` and every `select(k)` accept any value; the typed wildcards accept
      exactly the values of their runtime type, NaN excluded for numbers. */
  lemma WildcardsMatch(v: Value, k: string)
    ensures Matches(Wild(AnyValue), v) && Matches(Select(k), v)
    ensures Matches(Wild(AnyString), v) <==> v.Str?
    ensures Matches(Wild(AnyBoolean), v) <==> v.Bool?
    ensures Matches(Wild(AnyNumber), v) <==> v.Num?
  {
  }

  /** `not(p)` accepts exactly what `p` rejects, so double negation is the
      identity on the set of accepted values. */
  lemma NotInverts(p: Pattern, v: Value)
    ensures Matches(Not(p), v) <==> !Matches(p, v)
    ensures Matches(Not(Not(p)), v) <==> Matches(p, v)
  {
  }

  /** A one-element array pattern against an array: every element must match
      the single sub-pattern, whatever the length. */
  lemma ListRule(q: Pattern, elems: seq<Value>)
    ensures Matches(ArrayPat([q]), Arr(elems)) <==> forall i | 0 <= i < |elems| :: Matches(q, elems[i])
    ensures Matches(ArrayPat([q]), Arr([]))
  {
  }

  /** Any other array pattern against an array: equal lengths and positional
      matches. */
  lemma TupleRule(items: seq<Pattern>, elems: seq<Value>)
    requires |items| != 1
    ensures Matches(ArrayPat(items), Arr(elems)) <==>
            |items| == |elems| && forall i | 0 <= i < |items| :: Matches(items[i], elems[i])
  {
  }

  /** A two-element tuple never matches an array of another length. */
  lemma TupleLengthMismatch(p1: Pattern, p2: Pattern, elems: seq<Value>)
    requires |elems| != 2
    ensures !Matches(ArrayPat([p1, p2]), Arr(elems))
  {
  }

  /** A one-element pattern is never read as a 1-tuple: `[__.number]`
      accepts a two-element array of numbers. */
  lemma ListIsNotOneTuple()
    ensures Matches(ArrayPat([Wild(AnyNumber)]), Arr([Num(1), Num(2)]))
    ensures !Matches(ArrayPat([Wild(AnyNumber), Wild(AnyNumber)]), Arr([Num(1)]))
  {
  }

  /** A plain-object pattern against a plain object: every listed key's
      property must match the pattern given for it. */
  lemma ObjectRule(fields: seq<(string, Pattern)>, props: map<string, Value>)
    ensures Matches(ObjectPat(fields), Obj(props)) <==>
            forall i | 0 <= i < |fields| :: Matches(fields[i].1, Prop(Obj(props), fields[i].0))
  {
  }

  /** Plain-object patterns constrain only their own keys: keys the pattern
      does not list may be added to the value without changing the result. */
  lemma ObjectExtraKeys(fields: seq<(string, Pattern)>, props: map<string, Value>, extra: map<string, Value>)
    requires forall i | 0 <= i < |fields| :: fields[i].0 !in extra
    ensures Matches(ObjectPat(fields), Obj(props + extra)) == Matches(ObjectPat(fields), Obj(props))
  {
    forall i | 0 <= i < |fields|
      ensures Prop(Obj(props + extra), fields[i].0) == Prop(Obj(props), fields[i].0)
    {
    }
  }

  /** Map patterns likewise test only the keys they list. */
  lemma MapExtraKeys(entries: seq<(Primitive, Pattern)>, m: map<Value, Value>, extra: map<Value, Value>)
    requires forall i | 0 <= i < |entries| :: entries[i].0 !in extra
    ensures Matches(MapPat(entries), MapV(m + extra)) == Matches(MapPat(entries), MapV(m))
  {
    forall i | 0 <= i < |entries|
      ensures MapGet(m + extra, entries[i].0) == MapGet(m, entries[i].0)
    {
    }
  }

  /** The Set-pattern rule on Set values: no entries accepts only the empty
      set; one literal is a membership test; one typed wildcard is a test of
      every member; two or more entries must each be members. */
  lemma SetRules(entries: seq<Pattern>, members: set<Value>)
    ensures |entries| == 0 ==> (Matches(SetPat(entries), SetV(members)) <==> members == {})
    ensures |entries| == 1 && entries[0].Lit? ==>
              (Matches(SetPat(entries), SetV(members)) <==> entries[0].literal in members)
    ensures |entries| == 1 && IsWildcardConstant(entries[0]) ==>
              (Matches(SetPat(entries), SetV(members)) <==>
               forall m | m in members :: Matches(entries[0], m))
    ensures |entries| >= 2 ==>
              (Matches(SetPat(entries), SetV(members)) <==>
               forall i | 0 <= i < |entries| :: entries[i].Lit? && entries[i].literal in members)
  {
  }

  /** A NaN literal matches nothing: strict equality never holds for NaN. */
  lemma NaNNeverEqual(v: Value)
    ensures !Matches(Lit(NaN), v)
  {
  }

  /** A Set pattern nevertheless finds NaN among the members, since
      `Set.prototype.has` treats NaN as equal to itself. */
  lemma NaNSetMember(members: set<Value>)
    ensures Matches(SetPat([Lit(NaN)]), SetV(members)) <==> NaN in members
  {
  }

  /** A single typed wildcard in a Set pattern is the list rule applied to
      the members in any order in which they are listed. */
  lemma SetWildcardIsListRule(w: Wildcard, members: set<Value>, listed: seq<Value>)
    requires w != AnyValue
    requires forall x :: x in listed <==> x in members
    ensures Matches(SetPat([Wild(w)]), SetV(members)) <==> Matches(ArrayPat([Wild(w)]), Arr(listed))
  {
    if Matches(SetPat([Wild(w)]), SetV(members)) {
      forall i | 0 <= i < |listed|
        ensures Matches(Wild(w), listed[i])
      {
        assert listed[i] in members;
      }
    }
    if Matches(ArrayPat([Wild(w)]), Arr(listed)) {
      forall m | m in members
        ensures MatchesWildcard(w, m)
      {
        var i :| 0 <= i < |listed| && listed[i] == m;
        assert Matches(Wild(w), listed[i]);
      }
    }
  }

  /** Sequences that no JavaScript pattern can be: a Set holding `__.string`
      twice is the one-entry Set, `{a: 1, a: 2}` is `{a: 2}`, and `Object.keys`
      lists "1" before "b". */
  lemma NotWellFormed()
    ensures !WellFormed(SetPat([Wild(AnyString), Wild(AnyString)]))
    ensures !WellFormed(ObjectPat([("a", Lit(Num(1))), ("a", Lit(Num(2)))]))
    ensures !WellFormed(ObjectPat([("b", Select("x")), ("1", Select("x"))]))
    ensures WellFormed(ObjectPat([("1", Select("x")), ("b", Select("x"))]))
  {
    var twice := [Wild(AnyString), Wild(AnyString)];
    assert SameEntry(twice[0], twice[1]);
    assert !DistinctEntries(twice);
    var repeated := [("a", Lit(Num(1))), ("a", Lit(Num(2)))];
    assert repeated[0].0 == repeated[1].0;
    assert !DistinctNames(repeated);
    assert !IsCanonicalIndex("b");
    assert IsCanonicalIndex("1");
    var late := [("b", Select("x")), ("1", Select("x"))];
    assert late[1].0 == "1" && late[0].0 == "b";
    assert !InEnumerationOrder(late);
    var sorted := [("1", Select("x")), ("b", Select("x"))];
    assert sorted[1].0 == "b" && sorted[0].0 == "1";
    assert InEnumerationOrder(sorted);
    assert DistinctNames(sorted);
  }

  /** `__` is not one of the values of `__`, so a Set pattern holding only
      `__` is a membership test for the `__` object, which no set of the
      model contains. */
  lemma AnyIsNotASetWildcard(members: set<Value>)
    ensures !Matches(SetPat([Wild(AnyValue)]), SetV(members))
  {
  }

  /** Fall-through to the object rule: a Map or Set pattern against a plain
      object has no own keys to test and accepts; against null (`typeof null`
      is "object") it fails at strict equality. */
  lemma MapSetPatternsOnObjects(props: map<string, Value>, entries: seq<(Primitive, Pattern)>, members: seq<Pattern>)
    ensures Matches(MapPat(entries), Obj(props)) && Matches(SetPat(members), Obj(props))
    ensures !Matches(MapPat(entries), Null) && !Matches(SetPat(members), Null)
  {
  }

  /** An array pattern against a non-array object reads the index keys. */
  lemma ArrayPatternOnObject(items: seq<Pattern>, props: map<string, Value>)
    ensures Matches(ArrayPat(items), Obj(props)) <==>
            forall i | 0 <= i < |items| :: Matches(items[i], Prop(Obj(props), IndexKey(i)))
  {
  }

  /** A value whose `typeof` differs from a literal's never matches it. */
  lemma LiteralTypeMismatch(lit: Primitive, v: Value)
    requires TypeOf(lit) != TypeOf(v)
    ensures !Matches(Lit(lit), v)
  {
  }

  /** The early reject: once the wildcard, `select`, guard, `not` and list
      rules are passed by, a pattern whose `typeof` differs from the value's
      never matches, whether it is a literal or a structure. */
  lemma TypeOfMismatch(p: Pattern, v: Value)
    requires !p.Wild? && !p.Select? && !p.Guard? && !p.Not?
    requires !(IsListPattern(p) && IsArray(v))
    requires PatternTypeOf(p) != TypeOf(v)
    ensures !Matches(p, v)
  {
  }

  /** Structured patterns reject every primitive other than null. */
  lemma StructuresRejectPrimitives(p: Pattern, v: Primitive)
    requires p.ArrayPat? || p.MapPat? || p.SetPat? || p.ObjectPat?
    requires !v.Null?
    ensures !Matches(p, v)
  {
    TypeOfMismatch(p, v);
  }

  /** A literal other than NaN matches exactly the equal value. */
  lemma LiteralRule(lit: Primitive, v: Value)
    ensures Matches(Lit(lit), v) <==> v == lit && !lit.NaN?
  {
  }
}
