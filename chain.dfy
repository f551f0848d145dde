/** The clause chain: `match(value)` starts a builder, `with` and `when`
    register clauses, and `run` or `otherwise` evaluates them. The builder is
    persistent: registering a clause returns a new builder over a copy of the
    clause list extended by one. */
module Chain {
  import opened JsValues
  import opened Matcher
  import opened Selector

  /** A registered clause: `{test, select, handler}`. Handlers receive the
      subject value first and the bindings second. */
  datatype Clause<R> = Clause(test: Value -> bool, select: Value -> Bindings, handler: (Value, Bindings) -> R)

  /** The builder's state: the subject and the clauses in registration order. */
  datatype Builder<R> = Builder(subject: Value, clauses: seq<Clause<R>>)

  /** "Pattern matching error: no pattern matches value ...". */
  datatype Error = NoMatch

  datatype Result<R> = Ok(value: R) | Err(error: Error)

  /** `match(value)`: a builder over no clauses. */
  function Match<R>(v: Value): (b: Builder<R>)
    ensures b.subject == v && |b.clauses| == 0
  {
    Builder(v, [])
  }

  /** `predicates.every((predicate) => predicate(value))`. */
  predicate AllHold(preds: seq<Value -> bool>, v: Value) {
    forall i | 0 <= i < |preds| :: preds[i](v)
  }

  /** `with(pattern, ...predicates, handler)`: the new clause passes when the
      pattern matches and every extra predicate holds; it captures with the
      selector. The clauses already registered are kept as they are. */
  function With<R>(b: Builder<R>, p: Pattern, preds: seq<Value -> bool>, handler: (Value, Bindings) -> R): (r: Builder<R>)
    ensures r.subject == b.subject
    ensures |r.clauses| == |b.clauses| + 1 && r.clauses[..|b.clauses|] == b.clauses
    ensures forall v :: r.clauses[|b.clauses|].test(v) == (Matches(p, v) && AllHold(preds, v))
    ensures forall v :: r.clauses[|b.clauses|].select(v) == Selection(p, v)
    ensures r.clauses[|b.clauses|].handler == handler
  {
    var clause := Clause(v => Matches(p, v) && AllHold(preds, v), v => Selection(p, v), handler);
    Builder(b.subject, b.clauses + [clause])
  }

  /** `when(predicate, handler)`: a clause tested by the predicate alone,
      whose handler receives no bindings. */
  function When<R>(b: Builder<R>, pred: Value -> bool, handler: (Value, Bindings) -> R): (r: Builder<R>)
    ensures r.subject == b.subject
    ensures |r.clauses| == |b.clauses| + 1 && r.clauses[..|b.clauses|] == b.clauses
    ensures forall v :: r.clauses[|b.clauses|].test(v) == pred(v)
    ensures forall v :: r.clauses[|b.clauses|].select(v) == map[]
    ensures r.clauses[|b.clauses|].handler == handler
  {
    Builder(b.subject, b.clauses + [Clause(pred, _ => map[], handler)])
  }

  /** `patterns.find(({ test }) => test(value))`: the first clause, in
      registration order, whose test passes. */
  function Find<R>(cs: seq<Clause<R>>, v: Value): (r: Option<nat>)
    ensures r.Some? ==> r.value < |cs| && cs[r.value].test(v) && forall j | 0 <= j < r.value :: !cs[j].test(v)
    ensures r.None? ==> forall j | 0 <= j < |cs| :: !cs[j].test(v)
    decreases |cs|
  {
    if cs == [] then None
    else if cs[0].test(v) then Some(0)
    else match Find(cs[1..], v)
      case None => None
      case Some(i) => Some(i + 1)
  }

  /** `run()`: the handler of the first passing clause, called with the subject
      and that clause's selections; the no-match error when none passes. */
  function Run<R>(b: Builder<R>): (r: Result<R>)
    ensures r.Err? <==> forall i | 0 <= i < |b.clauses| :: !b.clauses[i].test(b.subject)
    ensures forall i | 0 <= i < |b.clauses| && b.clauses[i].test(b.subject) &&
                       (forall j | 0 <= j < i :: !b.clauses[j].test(b.subject)) ::
              r == Ok(b.clauses[i].handler(b.subject, b.clauses[i].select(b.subject)))
  {
    match Find(b.clauses, b.subject)
    case None => Err(NoMatch)
    case Some(i) =>
      assert forall j | 0 <= j < |b.clauses| && b.clauses[j].test(b.subject) &&
                        (forall l | 0 <= l < j :: !b.clauses[l].test(b.subject)) :: j == i;
      Ok(b.clauses[i].handler(b.subject, b.clauses[i].select(b.subject)))
  }

  /** `otherwise(handler)`: registers a clause whose pattern is `__`, then runs. */
  function Otherwise<R>(b: Builder<R>, handler: (Value, Bindings) -> R): Result<R> {
    Run(Builder(b.subject, b.clauses + [Clause(v => Matches(Wild(AnyValue), v), _ => map[], handler)]))
  }

  // ---------------------------------------------------------------------
  // Properties of the chain

  /** Appending a clause leaves the first passing clause of the earlier ones
      in place and is found only when none of them passes. */
  lemma {:induction false} FindAppend<R>(cs: seq<Clause<R>>, c: Clause<R>, v: Value)
    ensures Find(cs + [c], v) ==
              (if Find(cs, v).Some? then Find(cs, v)
               else if c.test(v) then Some(|cs|) else None)
    decreases |cs|
  {
    if cs == [] {
      assert [] + [c] == [c];
    } else {
      assert (cs + [c])[0] == cs[0];
      assert (cs + [c])[1..] == cs[1..] + [c];
      FindAppend(cs[1..], c, v);
    }
  }

  /** `run` after appending a clause: the earlier outcome if it succeeded,
      otherwise the appended clause decides. */
  lemma RunAppend<R>(b: Builder<R>, c: Clause<R>)
    ensures Run(Builder(b.subject, b.clauses + [c])) ==
              (if Run(b).Ok? then Run(b)
               else if c.test(b.subject) then Ok(c.handler(b.subject, c.select(b.subject)))
               else Err(NoMatch))
  {
    FindAppend(b.clauses, c, b.subject);
    var cs := b.clauses + [c];
    match Find(b.clauses, b.subject)
    case Some(i) =>
      assert cs[i] == b.clauses[i];
    case None =>
      assert cs[|b.clauses|] == c;
  }

  /** Registering a clause never changes an outcome the earlier clauses
      already decide; after a miss, the new clause decides. */
  lemma WithAfterRun<R>(b: Builder<R>, p: Pattern, preds: seq<Value -> bool>, handler: (Value, Bindings) -> R)
    ensures Run(b).Ok? ==> Run(With(b, p, preds, handler)) == Run(b)
    ensures Run(b).Err? ==>
              Run(With(b, p, preds, handler)) ==
                (if Matches(p, b.subject) && AllHold(preds, b.subject)
                 then Ok(handler(b.subject, Selection(p, b.subject)))
                 else Err(NoMatch))
  {
    var b' := With(b, p, preds, handler);
    var c := b'.clauses[|b.clauses|];
    assert b'.clauses == b.clauses + [c];
    RunAppend(b, c);
  }

  /** The same for `when`. */
  lemma WhenAfterRun<R>(b: Builder<R>, pred: Value -> bool, handler: (Value, Bindings) -> R)
    ensures Run(b).Ok? ==> Run(When(b, pred, handler)) == Run(b)
    ensures Run(b).Err? ==>
              Run(When(b, pred, handler)) ==
                (if pred(b.subject) then Ok(handler(b.subject, map[])) else Err(NoMatch))
  {
    var b' := When(b, pred, handler);
    var c := b'.clauses[|b.clauses|];
    assert b'.clauses == b.clauses + [c];
    RunAppend(b, c);
  }

  /** `otherwise` never fails: it agrees with `run` when a registered clause
      passes and calls its own handler with no bindings otherwise. */
  lemma OtherwiseTotal<R>(b: Builder<R>, handler: (Value, Bindings) -> R)
    ensures Otherwise(b, handler).Ok?
    ensures Run(b).Ok? ==> Otherwise(b, handler) == Run(b)
    ensures Run(b).Err? ==> Otherwise(b, handler) == Ok(handler(b.subject, map[]))
  {
    var c := Clause(v => Matches(Wild(AnyValue), v), _ => map[], handler);
    assert c.test(b.subject);
    RunAppend(b, c);
  }

  /** Clause order decides precedence: of two clauses that both match, the
      one registered first runs. */
  lemma FirstRegisteredWins<R>(v: Value, p1: Pattern, h1: (Value, Bindings) -> R, p2: Pattern, h2: (Value, Bindings) -> R)
    requires Matches(p1, v) && Matches(p2, v)
    ensures Run(With(With(Match(v), p1, [], h1), p2, [], h2)) == Ok(h1(v, Selection(p1, v)))
  {
    var b1 := With(Match<R>(v), p1, [], h1);
    WithAfterRun(Match<R>(v), p1, [], h1);
    WithAfterRun(b1, p2, [], h2);
  }

  /** A literal clause that does not match makes `run` fail, and `otherwise`
      on the same chain returns its default. */
  lemma NoClauseMatched<R>(h: (Value, Bindings) -> R, default: (Value, Bindings) -> R)
    ensures Run(With(Match(Num(2)), Lit(Num(1)), [], h)) == Err(NoMatch)
    ensures Otherwise(With(Match(Num(2)), Lit(Num(1)), [], h), default) == Ok(default(Num(2), map[]))
  {
    var b := With(Match<R>(Num(2)), Lit(Num(1)), [], h);
    LiteralRule(Num(1), Num(2));
    WithAfterRun(Match<R>(Num(2)), Lit(Num(1)), [], h);
    OtherwiseTotal(b, default);
  }

  /** A pair of object patterns, the second selecting `data` as `d`: the
      handler receives the whole pair and the record `{d: "X"}`. */
  lemma PairWithSelection<R>(h: (Value, Bindings) -> R)
    ensures Run(With(Match(PairValue()), PairPattern(), [], h)) == Ok(h(PairValue(), map["d" := Str("X")]))
  {
    PairMatches();
    PairSelects();
    WithAfterRun(Match<R>(PairValue()), PairPattern(), [], h);
  }

  lemma MergeOne(a: Bindings)
    ensures MergeAll([a]) == a
  {
    MergeAllSnoc([], a);
    assert [] + [a] == [a];
  }

  lemma MergeTwo(a: Bindings, b: Bindings)
    ensures MergeAll([a, b]) == a + b
  {
    MergeOne(a);
    MergeAllSnoc([a], b);
    assert [a] + [b] == [a, b];
  }

  function LoadingPattern(): Pattern { ObjectPat([("status", Lit(Str("loading")))]) }
  function SuccessPattern(): Pattern { ObjectPat([("type", Lit(Str("success"))), ("data", Select("d"))]) }
  function PairPattern(): Pattern { ArrayPat([LoadingPattern(), SuccessPattern()]) }
  function LoadingValue(): Value { Obj(map["status" := Str("loading")]) }
  function SuccessValue(): Value { Obj(map["type" := Str("success"), "data" := Str("X")]) }
  function PairValue(): Value { Arr([LoadingValue(), SuccessValue()]) }

  lemma PairMatches()
    ensures Matches(PairPattern(), PairValue())
  {
    LoadingMatches();
    SuccessMatches();
    TupleRule(PairPattern().items, PairValue().elems);
  }

  lemma LoadingMatches()
    ensures Matches(LoadingPattern(), LoadingValue())
  {
    var p, v := LoadingPattern(), LoadingValue();
    assert Prop(v, "status") == Str("loading");
    LiteralRule(Str("loading"), Str("loading"));
    ObjectRule(p.fields, v.props);
  }

  lemma SuccessMatches()
    ensures Matches(SuccessPattern(), SuccessValue())
  {
    var p, v := SuccessPattern(), SuccessValue();
    assert Prop(v, "type") == Str("success");
    LiteralRule(Str("success"), Str("success"));
    assert Matches(p.fields[1].1, Prop(v, p.fields[1].0));
    ObjectRule(p.fields, v.props);
  }

  lemma SuccessSelects()
    ensures Selection(SuccessPattern(), SuccessValue()) == map["d" := Str("X")]
  {
    var p, v := SuccessPattern(), SuccessValue();
    assert Selection(p.fields[0].1, Prop(v, "type")) == map[];
    assert Prop(v, "data") == Str("X");
    assert Selection(p.fields[1].1, Prop(v, "data")) == map["d" := Str("X")];
    EachFieldAt(p, v, 2);
    assert EachField(p, v, 2) == [map[], map["d" := Str("X")]];
    MergeTwo(map[], map["d" := Str("X")]);
  }

  lemma LoadingSelects()
    ensures Selection(LoadingPattern(), LoadingValue()) == map[]
  {
    var q, w := LoadingPattern(), LoadingValue();
    assert Selection(q.fields[0].1, Prop(w, "status")) == map[];
    EachFieldAt(q, w, 1);
    assert EachField(q, w, 1) == [map[]];
    MergeOne(map[]);
  }

  lemma PairSelects()
    ensures Selection(PairPattern(), PairValue()) == map["d" := Str("X")]
  {
    var p, v := PairPattern(), PairValue();
    LoadingSelects();
    SuccessSelects();
    EachPositionAt(p, v, 2);
    assert EachPosition(p, v, 2) == [map[], map["d" := Str("X")]];
    MergeTwo(map[], map["d" := Str("X")]);
  }
}
