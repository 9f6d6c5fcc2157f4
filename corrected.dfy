/** Two defects of the operator key and a corrected operator handler.

    1. An operator key only latches whenever the first operand is "0", so a
       genuine first operand of zero is never combined: from the initial state
       "- 3 =" shows 3 and "0 / 5 =" shows 5.
    2. In the latching branch "=" is stored as the pending operator, so
       "2 = 3 +" hands the expression "2=3" to the evaluator.

    The corrected handler latches only when no operation is pending or an
    operand is still awaited, and never keeps "=" as the pending operator. */
module Corrected {
  import opened Wrappers
  import opened Calculator

  // ----- the code as written -----

  /** As written: from the initial state "- 3 =" shows "3", whatever the
      evaluator would make of "0-3"; the evaluator is never consulted. */
  lemma ZeroOperandIgnored(env: Env)
    ensures Run(Initial, ["-", "3", "="], env).displayValue == "3"
    ensures Run(Initial, ["-", "3", "="], env).operator == Some(Equals)
  {
    var s1 := ProcessNewKey(Initial, "-", env);
    var s2 := ProcessNewKey(s1, "3", env);
    assert Latches(s2);
  }

  /** As written: a computed zero is ignored the same way. When "5-5" gives
      "0", "5 - 5 - 3 =" shows "3" rather than the result of "0-3". */
  lemma ZeroResultIgnored(env: Env)
    requires env.evaluate("5-5") == Some("0")
    ensures Run(Initial, ["5", "-", "5", "-", "3", "="], env).displayValue == "3"
  {
    var s1 := ProcessNewKey(Initial, "5", env);
    var s2 := ProcessNewKey(s1, "-", env);
    var s3 := ProcessNewKey(s2, "5", env);
    assert Expression(s3) == "5-5";
  }

  /** As written: after "2 =" the pending operator is "=", and "3 +" then hands
      "2=3" to the evaluator. */
  lemma EqualsLatchedAsOperator(env: Env)
    ensures Run(Initial, ["2", "="], env).operator == Some(Equals)
    ensures Run(Initial, ["2", "=", "3", "+"], env).displayValue == EvaluationText(env.evaluate("2=3"))
  {
    var s1 := ProcessNewKey(Initial, "2", env);
    var s2 := ProcessNewKey(s1, "=", env);
    var s3 := ProcessNewKey(s2, "3", env);
    assert Expression(s3) == "2=3";
  }

  // ----- the corrected handler -----

  const BinaryOperators: seq<Key> := ["/", "*", "-", "+"]

  /** Latch only when there is no pending operation or no fresh operand yet. */
  predicate LatchesCorrected(s: State)
  {
    s.operator == None || s.waitingForOperand
  }

  /** The operator key as evidently intended: a pending operation with a fresh
      second operand is always evaluated, and "=" is never left pending. */
  function ProcessOperatorCorrected(s: State, op: Key, evaluate: string -> Option<string>): (r: State)
    ensures r.waitingForOperand && !r.clearAll
    ensures r.firstOperand == r.displayValue
    ensures op == Equals ==> r.operator == None
    ensures op != Equals ==> r.operator == Some(op)
    ensures s.operator.Some? && !s.waitingForOperand ==>
              r.displayValue == EvaluationText(evaluate(Expression(s)))
    ensures s.operator == None || s.waitingForOperand ==> r.displayValue == s.displayValue
  {
    var newOperator := if op == Equals then None else Some(op);
    if LatchesCorrected(s) then
      s.(waitingForOperand := true, firstOperand := s.displayValue, operator := newOperator, clearAll := false)
    else
      var newDisplayValue := EvaluationText(evaluate(Expression(s)));
      s.(displayValue := newDisplayValue, waitingForOperand := true,
         firstOperand := newDisplayValue, operator := newOperator, clearAll := false)
  }

  /** The dispatcher with the corrected operator handler. */
  function ProcessNewKeyCorrected(s: State, key: Key, env: Env): (r: State)
    ensures key in Digits ==> r == ProcessDigit(s, key)
    ensures key in Operators ==> r == ProcessOperatorCorrected(s, key, env.evaluate)
    ensures key !in Digits && key !in Operators ==> r == ProcessFunctionKey(s, key, env)
  {
    if key in Digits then ProcessDigit(s, key)
    else if key in Operators then ProcessOperatorCorrected(s, key, env.evaluate)
    else ProcessFunctionKey(s, key, env)
  }

  function RunCorrected(s: State, keys: seq<Key>, env: Env): State
    decreases |keys|
  {
    if keys == [] then s else RunCorrected(ProcessNewKeyCorrected(s, keys[0], env), keys[1..], env)
  }

  predicate PendingIsBinary(s: State)
  {
    s.operator.Some? ==> s.operator.value in BinaryOperators
  }

  /** Corrected: a first operand of zero is combined like any other. */
  lemma ZeroOperandEvaluated(env: Env)
    ensures RunCorrected(Initial, ["-", "3", "="], env).displayValue == EvaluationText(env.evaluate("0-3"))
    ensures RunCorrected(Initial, ["-", "3", "="], env).operator == None
  {
    var s1 := ProcessNewKeyCorrected(Initial, "-", env);
    var s2 := ProcessNewKeyCorrected(s1, "3", env);
    assert Expression(s2) == "0-3";
  }

  /** Corrected: in every state reached by key presses the pending operator,
      if any, is one of the four binary operators, so the evaluator is only
      ever handed "first operand, binary operator, display". */
  lemma {:induction false} OperatorAlwaysBinary(s: State, keys: seq<Key>, env: Env)
    requires PendingIsBinary(s)
    ensures PendingIsBinary(RunCorrected(s, keys, env))
    decreases |keys|
  {
    if keys != [] {
      var t := ProcessNewKeyCorrected(s, keys[0], env);
      assert PendingIsBinary(t);
      OperatorAlwaysBinary(t, keys[1..], env);
    }
  }

  /** Corrected: "2 = 3 +" latches 3 with "+" pending instead of evaluating "2=3". */
  lemma EqualsNotLatched(env: Env)
    ensures RunCorrected(Initial, ["2", "="], env).operator == None
    ensures RunCorrected(Initial, ["2", "=", "3", "+"], env).firstOperand == "3"
    ensures RunCorrected(Initial, ["2", "=", "3", "+"], env).operator == Some("+")
  {
  }
}
