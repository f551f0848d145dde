/** The selector (`selectWithPattern`): it walks a pattern alongside the value
    the way the matcher does and collects the values under `select(key)`
    markers into a record of bindings. `Selection` is the specification;
    `SelectWith` builds the same record with the source's accumulator loops. */
module Selector {
  import opened JsValues
  import opened Matcher

  /** The record of named captures handed to a clause's handler. */
  type Bindings = map<string, Value>

  // ---------------------------------------------------------------------
  // The two ways sibling captures are combined

  /** `reduce` with `Object.assign(acc, selections)`: a union in which a later
      record overwrites the keys of earlier ones. */
  function MergeAll(sels: seq<Bindings>): Bindings
    decreases |sels|
  {
    if sels == [] then map[] else MergeAll(sels[..|sels| - 1]) + sels[|sels| - 1]
  }

  /** `acc[key] || []`: the captures gathered so far under a key. */
  function Lookup(acc: map<string, seq<Value>>, k: string): seq<Value> {
    if k in acc then acc[k] else []
  }

  /** One step of the list-pattern reduce: every key of `s` gets its value
      appended to its array of captures; other keys are untouched. */
  function Push(acc: map<string, seq<Value>>, s: Bindings): map<string, seq<Value>> {
    map k | k in acc.Keys + s.Keys :: Lookup(acc, k) + (if k in s then [s[k]] else [])
  }

  /** The list-pattern reduce over the elements' selections, starting at `{}`. */
  function Gather(sels: seq<Bindings>): map<string, seq<Value>>
    decreases |sels|
  {
    if sels == [] then map[] else Push(Gather(sels[..|sels| - 1]), sels[|sels| - 1])
  }

  /** The gathered captures as the record the source returns: arrays. */
  function AsArrays(acc: map<string, seq<Value>>): Bindings {
    map k | k in acc :: Arr(acc[k])
  }

  // ---------------------------------------------------------------------
  // The specification

  /** The selections of the first `n` elements under a list pattern. */
  function EachElement(p: Pattern, v: Value, n: nat): (sels: seq<Bindings>)
    requires IsListPattern(p) && IsArray(v) && n <= |v.elems|
    ensures |sels| == n
    decreases p, 1, n
  {
    if n == 0 then [] else EachElement(p, v, n - 1) + [Selection(p.items[0], v.elems[n - 1])]
  }

  /** The selections of the first `n` positions under a tuple pattern. */
  function EachPosition(p: Pattern, v: Value, n: nat): (sels: seq<Bindings>)
    requires p.ArrayPat? && IsArray(v) && n <= |p.items| <= |v.elems|
    ensures |sels| == n
    decreases p, 1, n
  {
    if n == 0 then [] else EachPosition(p, v, n - 1) + [Selection(p.items[n - 1], v.elems[n - 1])]
  }

  /** The selections of the first `n` index keys of an array pattern read
      off an object that is not an array. */
  function EachIndexKey(p: Pattern, v: Value, n: nat): (sels: seq<Bindings>)
    requires p.ArrayPat? && IsObject(v) && n <= |p.items|
    ensures |sels| == n
    decreases p, 1, n
  {
    if n == 0 then [] else EachIndexKey(p, v, n - 1) + [Selection(p.items[n - 1], Prop(v, IndexKey(n - 1)))]
  }

  /** The selections of the first `n` fields of an object pattern. */
  function EachField(p: Pattern, v: Value, n: nat): (sels: seq<Bindings>)
    requires p.ObjectPat? && IsObject(v) && n <= |p.fields|
    ensures |sels| == n
    decreases p, 1, n
  {
    if n == 0 then [] else EachField(p, v, n - 1) + [Selection(p.fields[n - 1].1, Prop(v, p.fields[n - 1].0))]
  }

  /** `selectWithPattern(p)(v)`. Guards, negations, wildcards and literals
      capture nothing; Map and Set patterns have no own keys to descend into. */
  function Selection(p: Pattern, v: Value): Bindings
    decreases p, 2
  {
    if p.Select? then map[p.key := v]
    else if IsListPattern(p) && IsArray(v) then
      AsArrays(Gather(EachElement(p, v, |v.elems|)))
    else if p.ArrayPat? && IsArray(v) then
      if |p.items| <= |v.elems| then MergeAll(EachPosition(p, v, |p.items|)) else map[]
    else if IsObjectPattern(p) && IsObject(v) then
      if p.ArrayPat? then MergeAll(EachIndexKey(p, v, |p.items|))
      else if p.ObjectPat? then MergeAll(EachField(p, v, |p.fields|))
      else map[]
    else map[]
  }

  // ---------------------------------------------------------------------
  // The source's accumulator loops

  /** The inner reduce of the list rule: `acc[key] = (acc[key] || []).concat([selections[key]])`
      for every key of `selections`. */
  method AppendCaptures(acc: map<string, seq<Value>>, selections: Bindings) returns (out: map<string, seq<Value>>)
    ensures out == Push(acc, selections)
  {
    out := acc;
    var keys := selections.Keys;
    assert selections - keys == map[];
    PushNothing(acc);
    while keys != {}
      invariant keys <= selections.Keys
      invariant out == Push(acc, selections - keys)
      decreases keys
    {
      var key :| key in keys;
      ghost var done := selections - keys;
      assert Lookup(out, key) == Lookup(acc, key);
      out := out[key := Lookup(out, key) + [selections[key]]];
      keys := keys - {key};
      assert selections - keys == done[key := selections[key]];
    }
    assert selections - {} == selections;
  }

  lemma PushNothing(acc: map<string, seq<Value>>)
    ensures Push(acc, map[]) == acc
  {
    assert forall k | k in acc :: Push(acc, map[])[k] == acc[k];
  }

  lemma GatherSnoc(sels: seq<Bindings>, s: Bindings)
    ensures Gather(sels + [s]) == Push(Gather(sels), s)
  {
    assert (sels + [s])[..|sels|] == sels;
  }

  lemma MergeAllSnoc(sels: seq<Bindings>, s: Bindings)
    ensures MergeAll(sels + [s]) == MergeAll(sels) + s
  {
    assert (sels + [s])[..|sels|] == sels;
  }

  lemma GatherStep(p: Pattern, v: Value, i: nat)
    requires IsListPattern(p) && IsArray(v) && i < |v.elems|
    ensures Gather(EachElement(p, v, i + 1)) == Push(Gather(EachElement(p, v, i)), Selection(p.items[0], v.elems[i]))
  {
    GatherSnoc(EachElement(p, v, i), Selection(p.items[0], v.elems[i]));
  }

  lemma PositionStep(p: Pattern, v: Value, i: nat)
    requires p.ArrayPat? && IsArray(v) && i < |p.items| <= |v.elems|
    ensures MergeAll(EachPosition(p, v, i + 1)) == MergeAll(EachPosition(p, v, i)) + Selection(p.items[i], v.elems[i])
  {
    MergeAllSnoc(EachPosition(p, v, i), Selection(p.items[i], v.elems[i]));
  }

  lemma IndexKeyStep(p: Pattern, v: Value, i: nat)
    requires p.ArrayPat? && IsObject(v) && i < |p.items|
    ensures MergeAll(EachIndexKey(p, v, i + 1)) == MergeAll(EachIndexKey(p, v, i)) + Selection(p.items[i], Prop(v, IndexKey(i)))
  {
    MergeAllSnoc(EachIndexKey(p, v, i), Selection(p.items[i], Prop(v, IndexKey(i))));
  }

  lemma FieldStep(p: Pattern, v: Value, i: nat)
    requires p.ObjectPat? && IsObject(v) && i < |p.fields|
    ensures MergeAll(EachField(p, v, i + 1)) == MergeAll(EachField(p, v, i)) + Selection(p.fields[i].1, Prop(v, p.fields[i].0))
  {
    MergeAllSnoc(EachField(p, v, i), Selection(p.fields[i].1, Prop(v, p.fields[i].0)));
  }

  /** The selector as the source runs it: a recursion whose rules build their
      record in a loop over elements, positions or keys. */
  method SelectWith(p: Pattern, v: Value) returns (r: Bindings)
    ensures r == Selection(p, v)
    decreases p, 2
  {
    if p.Select? {
      r := map[p.key := v];
    } else if IsListPattern(p) && IsArray(v) {
      r := SelectList(p, v);
    } else if p.ArrayPat? && IsArray(v) {
      if |p.items| <= |v.elems| {
        r := SelectTuple(p, v);
      } else {
        r := map[];
      }
    } else if IsObjectPattern(p) && IsObject(v) {
      if p.ArrayPat? {
        r := SelectIndexKeys(p, v);
      } else if p.ObjectPat? {
        r := SelectFields(p, v);
      } else {
        r := map[];
      }
    } else {
      r := map[];
    }
  }

  /** The list rule: the reduce over the elements' selections. */
  method SelectList(p: Pattern, v: Value) returns (r: Bindings)
    requires IsListPattern(p) && IsArray(v)
    ensures r == AsArrays(Gather(EachElement(p, v, |v.elems|)))
    decreases p, 1
  {
    var acc: map<string, seq<Value>> := map[];
    var i := 0;
    while i < |v.elems|
      invariant 0 <= i <= |v.elems|
      invariant acc == Gather(EachElement(p, v, i))
    {
      acc := GatherElement(p, v, i, acc);
      i := i + 1;
    }
    r := AsArrays(acc);
  }

  /** One step of the list rule: select in element `i` and fold the result
      into the accumulator. */
  method GatherElement(p: Pattern, v: Value, i: nat, acc: map<string, seq<Value>>) returns (next: map<string, seq<Value>>)
    requires IsListPattern(p) && IsArray(v) && i < |v.elems|
    requires acc == Gather(EachElement(p, v, i))
    ensures next == Gather(EachElement(p, v, i + 1))
    decreases p, 0
  {
    var selections := SelectWith(p.items[0], v.elems[i]);
    GatherStep(p, v, i);
    next := AppendCaptures(acc, selections);
  }

  /** The tuple rule: `Object.assign` of the positions' selections in order. */
  method SelectTuple(p: Pattern, v: Value) returns (r: Bindings)
    requires p.ArrayPat? && IsArray(v) && |p.items| <= |v.elems|
    ensures r == MergeAll(EachPosition(p, v, |p.items|))
    decreases p, 1
  {
    r := map[];
    var i := 0;
    while i < |p.items|
      invariant 0 <= i <= |p.items|
      invariant r == MergeAll(EachPosition(p, v, i))
    {
      r := AssignPosition(p, v, i, r);
      i := i + 1;
    }
  }

  /** One step of the tuple rule: merge position `i`'s selections. */
  method AssignPosition(p: Pattern, v: Value, i: nat, acc: Bindings) returns (next: Bindings)
    requires p.ArrayPat? && IsArray(v) && i < |p.items| <= |v.elems|
    requires acc == MergeAll(EachPosition(p, v, i))
    ensures next == MergeAll(EachPosition(p, v, i + 1))
    decreases p, 0
  {
    var selections := SelectWith(p.items[i], v.elems[i]);
    PositionStep(p, v, i);
    next := acc + selections;
  }

  /** The object rule for an array pattern: its index keys in order. */
  method SelectIndexKeys(p: Pattern, v: Value) returns (r: Bindings)
    requires p.ArrayPat? && IsObject(v)
    ensures r == MergeAll(EachIndexKey(p, v, |p.items|))
    decreases p, 1
  {
    r := map[];
    var i := 0;
    while i < |p.items|
      invariant 0 <= i <= |p.items|
      invariant r == MergeAll(EachIndexKey(p, v, i))
    {
      r := AssignIndexKey(p, v, i, r);
      i := i + 1;
    }
  }

  /** One step: merge the selections taken at index key `i`. */
  method AssignIndexKey(p: Pattern, v: Value, i: nat, acc: Bindings) returns (next: Bindings)
    requires p.ArrayPat? && IsObject(v) && i < |p.items|
    requires acc == MergeAll(EachIndexKey(p, v, i))
    ensures next == MergeAll(EachIndexKey(p, v, i + 1))
    decreases p, 0
  {
    var selections := SelectWith(p.items[i], Prop(v, IndexKey(i)));
    IndexKeyStep(p, v, i);
    next := acc + selections;
  }

  /** The object rule for an object pattern: its fields in order. */
  method SelectFields(p: Pattern, v: Value) returns (r: Bindings)
    requires p.ObjectPat? && IsObject(v)
    ensures r == MergeAll(EachField(p, v, |p.fields|))
    decreases p, 1
  {
    r := map[];
    var i := 0;
    while i < |p.fields|
      invariant 0 <= i <= |p.fields|
      invariant r == MergeAll(EachField(p, v, i))
    {
      r := AssignField(p, v, i, r);
      i := i + 1;
    }
  }

  /** One step: merge the selections taken at field `i`. */
  method AssignField(p: Pattern, v: Value, i: nat, acc: Bindings) returns (next: Bindings)
    requires p.ObjectPat? && IsObject(v) && i < |p.fields|
    requires acc == MergeAll(EachField(p, v, i))
    ensures next == MergeAll(EachField(p, v, i + 1))
    decreases p, 0
  {
    var selections := SelectWith(p.fields[i].1, Prop(v, p.fields[i].0));
    FieldStep(p, v, i);
    next := acc + selections;
  }

  // ---------------------------------------------------------------------
  // Properties of the selector

  /** The captures of key `k` across records, in order: one per record that
      binds `k`. */
  function Captures(k: string, sels: seq<Bindings>): seq<Value>
    decreases |sels|
  {
    if sels == [] then [] else (if k in sels[0] then [sels[0][k]] else []) + Captures(k, sels[1..])
  }

  /** The selections of every element under `q`, in element order. */
  function ElementSelections(q: Pattern, elems: seq<Value>): seq<Bindings> {
    seq(|elems|, i requires 0 <= i < |elems| => Selection(q, elems[i]))
  }

  /** The keys `select` markers name in a pattern, at the places the selector
      descends to. */
  ghost function SelectKeys(p: Pattern): set<string>
    decreases p
  {
    if p.Select? then {p.key}
    else if p.ArrayPat? then set i, k | 0 <= i < |p.items| && k in SelectKeys(p.items[i]) :: k
    else if p.ObjectPat? then set i, k | 0 <= i < |p.fields| && k in SelectKeys(p.fields[i].1) :: k
    else {}
  }

  lemma {:induction false} CapturesSnoc(k: string, sels: seq<Bindings>, s: Bindings)
    ensures Captures(k, sels + [s]) == Captures(k, sels) + (if k in s then [s[k]] else [])
    decreases |sels|
  {
    if sels == [] {
      assert [s][1..] == [];
    } else {
      var head := if k in sels[0] then [sels[0][k]] else [];
      assert (sels + [s])[0] == sels[0];
      assert (sels + [s])[1..] == sels[1..] + [s];
      assert Captures(k, sels + [s]) == head + Captures(k, sels[1..] + [s]);
      CapturesSnoc(k, sels[1..], s);
      assert Captures(k, sels) == head + Captures(k, sels[1..]);
    }
  }

  /** The list-pattern reduce gathers, under each key, exactly the values the
      records bind to it, in record order; a key is present iff some record
      binds it. */
  lemma {:induction false} GatherIsCaptures(sels: seq<Bindings>, k: string)
    ensures Lookup(Gather(sels), k) == Captures(k, sels)
    ensures k in Gather(sels) <==> exists i | 0 <= i < |sels| :: k in sels[i]
    decreases |sels|
  {
    if sels != [] {
      var init, last := sels[..|sels| - 1], sels[|sels| - 1];
      assert sels == init + [last];
      GatherIsCaptures(init, k);
      CapturesSnoc(k, init, last);
      if k in Gather(init) {
        var i :| 0 <= i < |init| && k in init[i];
        assert sels[i] == init[i];
      }
      if exists i | 0 <= i < |sels| :: k in sels[i] {
        var i :| 0 <= i < |sels| && k in sels[i];
        if i < |init| {
          assert init[i] == sels[i];
        }
      }
    }
  }

  /** `Object.assign` in sequence: the merged record binds exactly the keys
      some record binds. */
  lemma {:induction false} MergeAllKeys(sels: seq<Bindings>, k: string)
    ensures k in MergeAll(sels) <==> exists i | 0 <= i < |sels| :: k in sels[i]
    decreases |sels|
  {
    if sels != [] {
      var init := sels[..|sels| - 1];
      MergeAllKeys(init, k);
      if k in MergeAll(init) {
        var i :| 0 <= i < |init| && k in init[i];
        assert sels[i] == init[i];
      }
      if exists i | 0 <= i < |sels| :: k in sels[i] {
        var i :| 0 <= i < |sels| && k in sels[i];
        if i < |init| {
          assert init[i] == sels[i];
        }
      }
    }
  }

  /** Last write wins: a key takes the value of the last record binding it. */
  lemma {:induction false} MergeAllLastWins(sels: seq<Bindings>, k: string, j: nat)
    requires j < |sels| && k in sels[j]
    requires forall i | j < i < |sels| :: k !in sels[i]
    ensures k in MergeAll(sels) && MergeAll(sels)[k] == sels[j][k]
    decreases |sels|
  {
    var init := sels[..|sels| - 1];
    if j < |sels| - 1 {
      MergeAllLastWins(init, k, j);
    }
  }

  lemma {:induction false} EachElementAt(p: Pattern, v: Value, n: nat)
    requires IsListPattern(p) && IsArray(v) && n <= |v.elems|
    ensures forall i | 0 <= i < n :: EachElement(p, v, n)[i] == Selection(p.items[0], v.elems[i])
    decreases n
  {
    if n > 0 {
      EachElementAt(p, v, n - 1);
    }
  }

  lemma {:induction false} EachPositionAt(p: Pattern, v: Value, n: nat)
    requires p.ArrayPat? && IsArray(v) && n <= |p.items| <= |v.elems|
    ensures forall i | 0 <= i < n :: EachPosition(p, v, n)[i] == Selection(p.items[i], v.elems[i])
    decreases n
  {
    if n > 0 {
      EachPositionAt(p, v, n - 1);
    }
  }

  lemma {:induction false} EachIndexKeyAt(p: Pattern, v: Value, n: nat)
    requires p.ArrayPat? && IsObject(v) && n <= |p.items|
    ensures forall i | 0 <= i < n :: EachIndexKey(p, v, n)[i] == Selection(p.items[i], Prop(v, IndexKey(i)))
    decreases n
  {
    if n > 0 {
      EachIndexKeyAt(p, v, n - 1);
    }
  }

  lemma {:induction false} EachFieldAt(p: Pattern, v: Value, n: nat)
    requires p.ObjectPat? && IsObject(v) && n <= |p.fields|
    ensures forall i | 0 <= i < n :: EachField(p, v, n)[i] == Selection(p.fields[i].1, Prop(v, p.fields[i].0))
    decreases n
  {
    if n > 0 {
      EachFieldAt(p, v, n - 1);
    }
  }

  /** `select(k)` on `v` yields exactly `{k: v}`. */
  lemma SelectBindsValue(k: string, v: Value)
    ensures Selection(Select(k), v) == map[k := v]
  {
  }

  /** A list pattern binds each key to the array of that key's captures, one
      per element that captures it, in element order; an empty array binds
      nothing at all. */
  lemma ListSelection(q: Pattern, elems: seq<Value>, k: string)
    ensures var r := Selection(ArrayPat([q]), Arr(elems));
            && (k in r <==> exists i | 0 <= i < |elems| :: k in Selection(q, elems[i]))
            && (k in r ==> r[k] == Arr(Captures(k, ElementSelections(q, elems))))
    ensures elems == [] ==> Selection(ArrayPat([q]), Arr(elems)) == map[]
  {
    var p, v := ArrayPat([q]), Arr(elems);
    EachElementAt(p, v, |elems|);
    var sels := EachElement(p, v, |elems|);
    assert sels == ElementSelections(q, elems);
    GatherIsCaptures(sels, k);
  }

  /** A tuple pattern longer than the array binds nothing; otherwise it binds
      every key some position captures, and a key captured at several
      positions takes the value of the last. */
  lemma TupleSelection(items: seq<Pattern>, elems: seq<Value>, k: string)
    requires |items| != 1
    ensures |items| > |elems| ==> Selection(ArrayPat(items), Arr(elems)) == map[]
    ensures |items| <= |elems| ==>
              (k in Selection(ArrayPat(items), Arr(elems)) <==>
               exists i | 0 <= i < |items| :: k in Selection(items[i], elems[i]))
    ensures forall j | 0 <= j < |items| <= |elems| && k in Selection(items[j], elems[j]) &&
                       (forall i | j < i < |items| :: k !in Selection(items[i], elems[i])) ::
              k in Selection(ArrayPat(items), Arr(elems)) &&
              Selection(ArrayPat(items), Arr(elems))[k] == Selection(items[j], elems[j])[k]
  {
    var p, v := ArrayPat(items), Arr(elems);
    if |items| <= |elems| {
      EachPositionAt(p, v, |items|);
      var sels := EachPosition(p, v, |items|);
      MergeAllKeys(sels, k);
      forall j | 0 <= j < |items| && k in Selection(items[j], elems[j]) &&
                 (forall i | j < i < |items| :: k !in Selection(items[i], elems[i]))
        ensures k in MergeAll(sels) && MergeAll(sels)[k] == sels[j][k]
      {
        MergeAllLastWins(sels, k, j);
      }
    }
  }

  /** An object pattern binds every key some field captures; a key captured
      by several fields takes the value of the last field. */
  lemma ObjectSelection(fields: seq<(string, Pattern)>, v: Value, k: string)
    requires IsObject(v)
    ensures k in Selection(ObjectPat(fields), v) <==>
            exists i | 0 <= i < |fields| :: k in Selection(fields[i].1, Prop(v, fields[i].0))
    ensures forall j | 0 <= j < |fields| && k in Selection(fields[j].1, Prop(v, fields[j].0)) &&
                       (forall i | j < i < |fields| :: k !in Selection(fields[i].1, Prop(v, fields[i].0))) ::
              k in Selection(ObjectPat(fields), v) &&
              Selection(ObjectPat(fields), v)[k] == Selection(fields[j].1, Prop(v, fields[j].0))[k]
  {
    var p := ObjectPat(fields);
    EachFieldAt(p, v, |fields|);
    var sels := EachField(p, v, |fields|);
    MergeAllKeys(sels, k);
    forall j | 0 <= j < |fields| && k in Selection(fields[j].1, Prop(v, fields[j].0)) &&
               (forall i | j < i < |fields| :: k !in Selection(fields[i].1, Prop(v, fields[i].0)))
      ensures k in MergeAll(sels) && MergeAll(sels)[k] == sels[j][k]
    {
      MergeAllLastWins(sels, k, j);
    }
  }

  /** Every key the selector binds is named by a `select` marker of the
      pattern. */
  lemma {:induction false} SelectionKeys(p: Pattern, v: Value)
    ensures Selection(p, v).Keys <= SelectKeys(p)
    decreases p, 1
  {
    if p.Select? {
    } else if IsListPattern(p) && IsArray(v) {
      ListKeys(p, v);
    } else if p.ArrayPat? && IsArray(v) {
      if |p.items| <= |v.elems| {
        PositionKeys(p, v);
      }
    } else if IsObjectPattern(p) && IsObject(v) {
      if p.ArrayPat? {
        IndexKeyKeys(p, v);
      } else if p.ObjectPat? {
        FieldKeys(p, v);
      }
    }
  }

  lemma {:induction false} ListKeys(p: Pattern, v: Value)
    requires IsListPattern(p) && IsArray(v)
    ensures Gather(EachElement(p, v, |v.elems|)).Keys <= SelectKeys(p)
    decreases p, 0
  {
    var sels := EachElement(p, v, |v.elems|);
    EachElementAt(p, v, |v.elems|);
    forall k | k in Gather(sels)
      ensures k in SelectKeys(p)
    {
      GatherIsCaptures(sels, k);
      var i :| 0 <= i < |sels| && k in sels[i];
      SelectionKeys(p.items[0], v.elems[i]);
    }
  }

  lemma {:induction false} PositionKeys(p: Pattern, v: Value)
    requires p.ArrayPat? && IsArray(v) && |p.items| <= |v.elems|
    ensures MergeAll(EachPosition(p, v, |p.items|)).Keys <= SelectKeys(p)
    decreases p, 0
  {
    var sels := EachPosition(p, v, |p.items|);
    EachPositionAt(p, v, |p.items|);
    forall k | k in MergeAll(sels)
      ensures k in SelectKeys(p)
    {
      MergeAllKeys(sels, k);
      var i :| 0 <= i < |sels| && k in sels[i];
      SelectionKeys(p.items[i], v.elems[i]);
    }
  }

  lemma {:induction false} IndexKeyKeys(p: Pattern, v: Value)
    requires p.ArrayPat? && IsObject(v)
    ensures MergeAll(EachIndexKey(p, v, |p.items|)).Keys <= SelectKeys(p)
    decreases p, 0
  {
    var sels := EachIndexKey(p, v, |p.items|);
    EachIndexKeyAt(p, v, |p.items|);
    forall k | k in MergeAll(sels)
      ensures k in SelectKeys(p)
    {
      MergeAllKeys(sels, k);
      var i :| 0 <= i < |sels| && k in sels[i];
      SelectionKeys(p.items[i], Prop(v, IndexKey(i)));
    }
  }

  lemma {:induction false} FieldKeys(p: Pattern, v: Value)
    requires p.ObjectPat? && IsObject(v)
    ensures MergeAll(EachField(p, v, |p.fields|)).Keys <= SelectKeys(p)
    decreases p, 0
  {
    var sels := EachField(p, v, |p.fields|);
    EachFieldAt(p, v, |p.fields|);
    forall k | k in MergeAll(sels)
      ensures k in SelectKeys(p)
    {
      MergeAllKeys(sels, k);
      var i :| 0 <= i < |sels| && k in sels[i];
      SelectionKeys(p.fields[i].1, Prop(v, p.fields[i].0));
    }
  }

  /** A pattern without `select` markers hands its handler an empty record,
      not the matched value. */
  lemma NoSelectNoBindings(p: Pattern, v: Value)
    requires SelectKeys(p) == {}
    ensures Selection(p, v) == map[]
  {
    SelectionKeys(p, v);
  }
}
