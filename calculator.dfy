/** The calculator's key-input state machine. The component holds one state
    record and replaces it wholesale on every key press, so each key handler is
    a function from the current record to its replacement. */
module Calculator {
  import Strings
  import opened Wrappers

  /** A key symbol, as carried by a keypad button. */
  type Key = string

  const Digits: seq<Key> := ["0", "1", "2", "3", "4", "5", "6", "7", "8", "9"]
  const Operators: seq<Key> := ["/", "*", "-", "+", "="]
  const Equals: Key := "="
  const ClearKey: Key := "C"
  /** The sign-toggle key, "±". */
  const PlusMinusKey: Key := "\U{B1}"
  const PointKey: Key := "."
  const PercentKey: Key := "%"
  const FunctionKeys: seq<Key> := [ClearKey, PlusMinusKey, PointKey, PercentKey]

  /** The component's state record. `operator` is `None` when the source holds null. */
  datatype State = State(
    displayValue: string,
    operator: Option<Key>,
    waitingForOperand: bool,
    firstOperand: string,
    clearAll: bool)

  /** The state the component is created with. */
  const Initial: State := State("0", None, false, "0", true)

  /** What the machine consults but does not define: the expression evaluator
      (`None` when it throws; otherwise the text of its result), and the
      floating-point percent and sign-toggle rewrites of the display. */
  datatype Env = Env(
    evaluate: string -> Option<string>,
    percent: string -> string,
    negate: string -> string)

  /** The pending operation is the same in both states. */
  predicate SameOperation(s: State, r: State)
  {
    r.operator == s.operator && r.firstOperand == s.firstOperand
  }

  /** A digit key: starts a fresh operand after an operator, otherwise extends
      the display, replacing a bare "0". */
  function ProcessDigit(s: State, digit: Key): (r: State)
    ensures SameOperation(s, r)
    ensures !r.waitingForOperand && !r.clearAll
    ensures s.waitingForOperand ==> r.displayValue == digit
    ensures !s.waitingForOperand && s.displayValue == "0" ==> r.displayValue == digit
    ensures !s.waitingForOperand && s.displayValue != "0" ==> r.displayValue == s.displayValue + digit
  {
    if s.waitingForOperand then
      s.(displayValue := digit, waitingForOperand := false, clearAll := false)
    else
      var newDisplayValue := if s.displayValue == "0" then digit else s.displayValue + digit;
      s.(displayValue := newDisplayValue, waitingForOperand := false, clearAll := false)
  }

  /** The display text for an evaluator outcome: a failure and a result of
      exactly "Infinity" both become "Error". */
  function EvaluationText(outcome: Option<string>): (text: string)
    ensures text != "Infinity"
    ensures text == "Error" <==> outcome == None || outcome == Some("Infinity") || outcome == Some("Error")
    ensures outcome.Some? && outcome.value != "Infinity" ==> text == outcome.value
  {
    match outcome
    case None => "Error"
    case Some(v) => if v == "Infinity" then "Error" else v
  }

  /** True when an operator key only latches the display as the first operand. */
  predicate Latches(s: State)
  {
    s.firstOperand == "0" || s.operator == None || s.waitingForOperand
  }

  /** The expression handed to the evaluator when an operator key completes a
      pending operation. */
  function Expression(s: State): (e: string)
    requires s.operator.Some?
    ensures |e| == |s.firstOperand| + |s.operator.value| + |s.displayValue|
    ensures e[..|s.firstOperand|] == s.firstOperand
    ensures e[|s.firstOperand|..|s.firstOperand| + |s.operator.value|] == s.operator.value
    ensures e[|s.firstOperand| + |s.operator.value|..] == s.displayValue
  {
    s.firstOperand + s.operator.value + s.displayValue
  }

  /** An operator key ("=" included): latches the display and the operator, or
      evaluates the pending operation and chains into the new operator. Either
      way the display shows the first operand afterwards and the machine waits
      for the next operand. */
  function ProcessOperator(s: State, op: Key, evaluate: string -> Option<string>): (r: State)
    ensures r.waitingForOperand && !r.clearAll
    ensures r.firstOperand == r.displayValue
    ensures Latches(s) ==> r.displayValue == s.displayValue && r.operator == Some(op)
    ensures !Latches(s) ==> r.displayValue == EvaluationText(evaluate(Expression(s)))
    ensures !Latches(s) && op == Equals ==> r.operator == None
    ensures !Latches(s) && op != Equals ==> r.operator == Some(op)
  {
    if Latches(s) then
      s.(waitingForOperand := true, firstOperand := s.displayValue, operator := Some(op), clearAll := false)
    else
      var newDisplayValue := EvaluationText(evaluate(Expression(s)));
      var newOperator := if op == Equals then None else Some(op);
      s.(displayValue := newDisplayValue, waitingForOperand := true,
         firstOperand := newDisplayValue, operator := newOperator, clearAll := false)
  }

  /** The decimal-point key: "0." after an operator, otherwise a point is
      appended unless the display already has one, in which case nothing at
      all changes. */
  function ProcessPoint(s: State): (r: State)
    ensures '.' in r.displayValue
    ensures SameOperation(s, r)
    ensures s.waitingForOperand ==> r.displayValue == "0." && !r.waitingForOperand && !r.clearAll
    ensures !s.waitingForOperand && '.' in s.displayValue ==> r == s
    ensures !s.waitingForOperand && '.' !in s.displayValue ==>
              r.displayValue == s.displayValue + PointKey && !r.waitingForOperand && !r.clearAll
  {
    var needPoint := Strings.IndexOf(s.displayValue, '.') == -1;
    if s.waitingForOperand then
      s.(displayValue := "0.", waitingForOperand := false, clearAll := false)
    else if needPoint then
      var r := s.(displayValue := s.displayValue + PointKey, waitingForOperand := false, clearAll := false);
      assert r.displayValue[|s.displayValue|] == '.';
      r
    else s
  }

  /** The percent key; the floating-point rewrite of the display is opaque. */
  function ProcessPercentage(s: State, percent: string -> string): (r: State)
    ensures SameOperation(s, r)
    ensures r.displayValue == percent(s.displayValue)
    ensures !r.waitingForOperand && !r.clearAll
  {
    s.(displayValue := percent(s.displayValue), waitingForOperand := false, clearAll := false)
  }

  /** The sign-toggle key; the floating-point rewrite of the display is opaque. */
  function ProcessPlusMinusToggle(s: State, negate: string -> string): (r: State)
    ensures SameOperation(s, r)
    ensures r.displayValue == negate(s.displayValue)
    ensures !r.waitingForOperand && !r.clearAll
  {
    s.(displayValue := negate(s.displayValue), waitingForOperand := false, clearAll := false)
  }

  /** The clear key: a full reset when `clearAll` is set ("AC"), otherwise only
      the display is cleared and the next clear becomes a full reset ("C"). */
  function ProcessClear(s: State): (r: State)
    ensures r.displayValue == "0" && r.clearAll
    ensures s.clearAll ==> r == Initial
    ensures !s.clearAll ==> SameOperation(s, r) && r.waitingForOperand == s.waitingForOperand
  {
    if s.clearAll then State("0", None, false, "0", true)
    else s.(displayValue := "0", clearAll := true)
  }

  /** Clear, sign toggle, point and percent; any other key is ignored. */
  function ProcessFunctionKey(s: State, key: Key, env: Env): (r: State)
    ensures key == ClearKey ==> r == ProcessClear(s)
    ensures key == PlusMinusKey ==> r == ProcessPlusMinusToggle(s, env.negate)
    ensures key == PointKey ==> r == ProcessPoint(s)
    ensures key == PercentKey ==> r == ProcessPercentage(s, env.percent)
    ensures key !in FunctionKeys ==> r == s
  {
    if key == ClearKey then ProcessClear(s)
    else if key == PlusMinusKey then ProcessPlusMinusToggle(s, env.negate)
    else if key == PointKey then ProcessPoint(s)
    else if key == PercentKey then ProcessPercentage(s, env.percent)
    else s
  }

  /** The single entry point: one key press. */
  function ProcessNewKey(s: State, key: Key, env: Env): (r: State)
    ensures key in Digits ==> r == ProcessDigit(s, key)
    ensures key in Operators ==> r == ProcessOperator(s, key, env.evaluate)
    ensures key in FunctionKeys ==> r == ProcessFunctionKey(s, key, env)
    ensures key !in Digits && key !in Operators && key !in FunctionKeys ==> r == s
  {
    if key in Digits then ProcessDigit(s, key)
    else if key in Operators then ProcessOperator(s, key, env.evaluate)
    else ProcessFunctionKey(s, key, env)
  }

  /** A sequence of key presses, first key first. */
  function Run(s: State, keys: seq<Key>, env: Env): State
    decreases |keys|
  {
    if keys == [] then s else Run(ProcessNewKey(s, keys[0], env), keys[1..], env)
  }
}
