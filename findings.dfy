/** The list-pattern reduce as written. Its accumulator starts as `{}`, an
    ordinary object, so `acc[key]` also finds the members every object
    inherits from `Object.prototype`. Those are truthy and have no `concat`,
    and `(acc[key] || []).concat(...)` throws a TypeError the first time such
    a key is captured. `Selector.Gather` is the evidently intended fold. */
module Findings {
  import opened JsValues
  import opened Selector

  /** The names `{}` inherits from `Object.prototype`. */
  const InheritedNames: set<string> := {
    "constructor", "hasOwnProperty", "isPrototypeOf", "propertyIsEnumerable",
    "toLocaleString", "toString", "valueOf", "__proto__",
    "__defineGetter__", "__defineSetter__", "__lookupGetter__", "__lookupSetter__"
  }

  datatype Outcome = Gathered(acc: map<string, seq<Value>>) | TypeError

  /** One step of the reduce as written: a captured key that is neither an
      own key of the accumulator nor absent from its prototype throws. */
  function PushAsWritten(acc: map<string, seq<Value>>, s: Bindings): Outcome {
    if exists k | k in s :: k !in acc && k in InheritedNames then TypeError
    else Gathered(Push(acc, s))
  }

  /** The whole reduce as written, starting at `{}`. */
  function GatherAsWritten(sels: seq<Bindings>): Outcome
    decreases |sels|
  {
    if sels == [] then Gathered(map[])
    else match GatherAsWritten(sels[..|sels| - 1])
      case TypeError => TypeError
      case Gathered(acc) => PushAsWritten(acc, sels[|sels| - 1])
  }

  /** Whether some record captures an inherited name. */
  predicate CapturesInherited(sels: seq<Bindings>) {
    exists i, k | 0 <= i < |sels| && k in sels[i] :: k in InheritedNames
  }

  /** Whether a record captures an inherited name. */
  predicate BindsInherited(s: Bindings) {
    exists k | k in s :: k in InheritedNames
  }

  lemma CapturesInheritedSnoc(init: seq<Bindings>, last: Bindings)
    ensures CapturesInherited(init + [last]) <==> CapturesInherited(init) || BindsInherited(last)
  {
    var sels := init + [last];
    if CapturesInherited(sels) {
      var i, k :| 0 <= i < |sels| && k in sels[i] && k in InheritedNames;
      if i < |init| {
        assert init[i] == sels[i];
      } else {
        assert sels[i] == last;
      }
    }
    if CapturesInherited(init) {
      var i, k :| 0 <= i < |init| && k in init[i] && k in InheritedNames;
      assert sels[i] == init[i];
    }
    if BindsInherited(last) {
      assert sels[|init|] == last;
    }
  }

  /** The reduce as written throws exactly when some element captures under an
      inherited name, and otherwise agrees with the intended fold. */
  lemma {:induction false} AsWrittenThrowsOnInherited(sels: seq<Bindings>)
    ensures GatherAsWritten(sels) == (if CapturesInherited(sels) then TypeError else Gathered(Gather(sels)))
    decreases |sels|
  {
    if sels != [] {
      var init, last := sels[..|sels| - 1], sels[|sels| - 1];
      assert sels == init + [last];
      AsWrittenThrowsOnInherited(init);
      CapturesInheritedSnoc(init, last);
      if !CapturesInherited(init) {
        forall k | k in last && k in InheritedNames
          ensures k !in Gather(init)
        {
          GatherIsCaptures(init, k);
        }
      }
    }
  }

  /** The input that shows it: one element capturing under `constructor`.
      As written the reduce throws; the intended fold gathers `[1]`. */
  lemma ConstructorCaptureThrows()
    ensures GatherAsWritten([map["constructor" := Num(1)]]) == TypeError
    ensures Gather([map["constructor" := Num(1)]]) == map["constructor" := [Num(1)]]
  {
    var sels := [map["constructor" := Num(1)]];
    assert sels[..0] == [];
    assert "constructor" in sels[0];
    assert Gather(sels) == Push(map[], sels[0]);
    assert Push(map[], sels[0]).Keys == {"constructor"};
    assert Push(map[], sels[0])["constructor"] == [Num(1)];
  }
}
