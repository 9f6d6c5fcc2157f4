/** Properties of the key-input state machine that relate several key presses:
    idempotence of the point key, the two-stage clear, digit entry, the
    at-most-one-point invariant, the invariants every reachable state keeps,
    and the operator-chaining scenarios. */
module CalculatorProperties {
  import opened Strings
  import opened Wrappers
  import opened Calculator
  import Display

  // ----- point and clear -----

  /** Pressing "." twice gives the same state as pressing it once. */
  lemma PointIdempotent(s: State, env: Env)
    ensures ProcessNewKey(ProcessNewKey(s, PointKey, env), PointKey, env) == ProcessNewKey(s, PointKey, env)
  {
  }

  /** Two consecutive clears reset every field, whatever the state. */
  lemma ClearTwiceResets(s: State, env: Env)
    ensures ProcessNewKey(ProcessNewKey(s, ClearKey, env), ClearKey, env) == Initial
  {
  }

  // ----- at most one decimal point -----

  predicate AtMostOnePoint(v: string)
  {
    Count(v, '.') <= 1
  }

  /** A digit key preserves the at-most-one-point invariant. */
  lemma {:induction false} DigitKeepsAtMostOnePoint(s: State, key: Key, env: Env)
    requires key in Digits
    requires AtMostOnePoint(s.displayValue)
    ensures AtMostOnePoint(ProcessNewKey(s, key, env).displayValue)
  {
    CountZero(key, '.');
    CountConcat(s.displayValue, key, '.');
  }

  /** The point key preserves the at-most-one-point invariant. */
  lemma {:induction false} PointKeepsAtMostOnePoint(s: State, env: Env)
    requires AtMostOnePoint(s.displayValue)
    ensures AtMostOnePoint(ProcessNewKey(s, PointKey, env).displayValue)
  {
    var r := ProcessNewKey(s, PointKey, env);
    if s.waitingForOperand {
      assert r.displayValue == "0" + ".";
      CountZero("0", '.');
      CountConcat("0", ".", '.');
    } else if '.' !in s.displayValue {
      CountZero(s.displayValue, '.');
      CountConcat(s.displayValue, PointKey, '.');
    }
  }

  /** What one key press needs of the opaque parts for the display to keep at
      most one point: when the operator key consults the evaluator, its result
      text has at most one point, and so do the percent and sign rewrites of
      the current display when those keys are pressed. */
  predicate StepKeepsNumberText(s: State, key: Key, env: Env)
  {
    && (key in Operators && !Latches(s) && env.evaluate(Expression(s)).Some? ==>
          AtMostOnePoint(env.evaluate(Expression(s)).value))
    && (key == PercentKey ==> AtMostOnePoint(env.percent(s.displayValue)))
    && (key == PlusMinusKey ==> AtMostOnePoint(env.negate(s.displayValue)))
  }

  /** Every key keeps at most one point on the display, provided the opaque
      part it consults, if any, returns such a text. */
  lemma {:induction false} KeyKeepsAtMostOnePoint(s: State, key: Key, env: Env)
    requires StepKeepsNumberText(s, key, env)
    requires AtMostOnePoint(s.displayValue)
    ensures AtMostOnePoint(ProcessNewKey(s, key, env).displayValue)
  {
    var r := ProcessNewKey(s, key, env);
    if key in Digits {
      DigitKeepsAtMostOnePoint(s, key, env);
    } else if key in Operators {
      if !Latches(s) {
        var outcome := env.evaluate(Expression(s));
        if outcome.Some? && outcome.value != "Infinity" && outcome.value != "Error" {
          assert r.displayValue == outcome.value;
        } else {
          assert r.displayValue == "Error";
          CountZero("Error", '.');
        }
      }
    } else if key == PointKey {
      PointKeepsAtMostOnePoint(s, env);
    } else if key == ClearKey {
      assert r.displayValue == "0";
      CountZero("0", '.');
    }
  }

  // ----- digit entry -----

  /** The text of a sequence of keys, concatenated. */
  function Concat(keys: seq<Key>): string
    decreases |keys|
  {
    if keys == [] then "" else keys[0] + Concat(keys[1..])
  }

  predicate AllDigits(keys: seq<Key>)
  {
    forall i :: 0 <= i < |keys| ==> keys[i] in Digits
  }

  lemma AllDigitsTail(keys: seq<Key>)
    requires AllDigits(keys) && keys != []
    ensures keys[0] in Digits && |keys[0]| == 1
    ensures AllDigits(keys[1..])
  {
    forall i | 0 <= i < |keys[1..]| ensures keys[1..][i] in Digits {
      assert keys[1..][i] == keys[i + 1];
    }
  }

  /** `ds` without its leading zeros. */
  function DropLeadingZeros(ds: string): (r: string)
    ensures |r| <= |ds| && r == ds[|ds| - |r|..]
    ensures forall i :: 0 <= i < |ds| - |r| ==> ds[i] == '0'
    ensures r == [] || r[0] != '0'
    decreases |ds|
  {
    if |ds| > 0 && ds[0] == '0' then DropLeadingZeros(ds[1..]) else ds
  }

  /** A typed digit string as the display shows it: leading zeros suppressed,
      and "0" for a string of zeros only. */
  function Normalized(ds: string): (r: string)
    ensures r != ""
  {
    var t := DropLeadingZeros(ds);
    if t == "" then "0" else t
  }

  lemma NormalizedZeroPrefix(rest: string)
    ensures Normalized("0" + rest) == Normalized(rest)
  {
    assert ("0" + rest)[1..] == rest;
  }

  lemma NormalizedOtherPrefix(d: string, rest: string)
    requires |d| == 1 && d[0] != '0'
    ensures Normalized(d + rest) == d + rest
  {
    assert (d + rest)[0] == d[0];
  }

  /** Digits typed onto a display showing a number other than "0", while not
      waiting for an operand, are appended; the pending operation is kept. */
  lemma {:induction false} DigitsAppend(s: State, keys: seq<Key>, env: Env)
    requires AllDigits(keys)
    requires !s.waitingForOperand && |s.displayValue| >= 1 && s.displayValue != "0"
    ensures Run(s, keys, env).displayValue == s.displayValue + Concat(keys)
    ensures SameOperation(s, Run(s, keys, env))
    ensures !Run(s, keys, env).waitingForOperand
    decreases |keys|
  {
    if keys != [] {
      AllDigitsTail(keys);
      var d := keys[0];
      var t := ProcessNewKey(s, d, env);
      assert t == ProcessDigit(s, d);
      assert |t.displayValue| == |s.displayValue| + 1;
      DigitsAppend(t, keys[1..], env);
      assert Concat(keys) == d + Concat(keys[1..]);
    }
  }

  /** Digits typed onto a display showing "0" (after a clear, say) leave the
      display equal to their concatenation with leading zeros suppressed; the
      pending operation is kept. */
  lemma {:induction false} DigitsFromZero(s: State, keys: seq<Key>, env: Env)
    requires AllDigits(keys)
    requires s.displayValue == "0"
    ensures Run(s, keys, env).displayValue == Normalized(Concat(keys))
    ensures SameOperation(s, Run(s, keys, env))
    decreases |keys|
  {
    if keys == [] {
      assert DropLeadingZeros("") == "";
    } else {
      AllDigitsTail(keys);
      var d := keys[0];
      var t := ProcessNewKey(s, d, env);
      assert t == ProcessDigit(s, d);
      assert t.displayValue == d && !t.waitingForOperand;
      assert Concat(keys) == d + Concat(keys[1..]);
      if d == "0" {
        DigitsFromZero(t, keys[1..], env);
        NormalizedZeroPrefix(Concat(keys[1..]));
      } else {
        DigitsAppend(t, keys[1..], env);
        NormalizedOtherPrefix(d, Concat(keys[1..]));
      }
    }
  }

  /** Entering digits after a full reset shows them with leading zeros suppressed. */
  lemma DigitsAfterReset(keys: seq<Key>, env: Env)
    requires AllDigits(keys)
    ensures Run(Initial, keys, env).displayValue == Normalized(Concat(keys))
    ensures Run(Initial, keys, env).operator == None
  {
    DigitsFromZero(Initial, keys, env);
  }

  /** The keypad reaches every fraction-digit count: from the initial state,
      "." followed by any digits asks the display for exactly as many fraction
      digits as digits were typed. The locale rendering rejects counts above
      its limit, so long fractions make the display fail to render. */
  lemma {:induction false} TypedFractionDigits(keys: seq<Key>, env: Env)
    requires AllDigits(keys)
    ensures Display.FractionDigits(Run(Initial, [PointKey] + keys, env).displayValue) == |Concat(keys)|
  {
    var t := ProcessNewKey(Initial, PointKey, env);
    assert t.displayValue == "0." && !t.waitingForOperand;
    assert ([PointKey] + keys)[1..] == keys;
    assert Run(Initial, [PointKey] + keys, env) == Run(t, keys, env);
    DigitsAppend(t, keys, env);
    assert "0." + Concat(keys) == "0" + "." + Concat(keys);
    Display.FractionDigitsOfTyped("0", Concat(keys));
  }

  // ----- invariants of every reachable state -----

  /** Facts every state reached by key presses satisfies: a pending "AC" means
      the display shows "0"; waiting for an operand (and not just cleared) means
      the display shows the first operand; a pending operator is an operator key. */
  predicate Consistent(s: State)
  {
    && (s.clearAll ==> s.displayValue == "0")
    && (s.waitingForOperand && !s.clearAll ==> s.displayValue == s.firstOperand)
    && (s.operator.Some? ==> s.operator.value in Operators)
  }

  lemma InitialConsistent()
    ensures Consistent(Initial)
    ensures Initial.operator == None
  {
  }

  lemma KeyKeepsConsistent(s: State, key: Key, env: Env)
    requires Consistent(s)
    ensures Consistent(ProcessNewKey(s, key, env))
  {
  }

  /** Every state reached from the initial state by key presses is consistent. */
  lemma {:induction false} RunKeepsConsistent(s: State, keys: seq<Key>, env: Env)
    requires Consistent(s)
    ensures Consistent(Run(s, keys, env))
    decreases |keys|
  {
    if keys != [] {
      KeyKeepsConsistent(s, keys[0], env);
      RunKeepsConsistent(ProcessNewKey(s, keys[0], env), keys[1..], env);
    }
  }

  /** `StepKeepsNumberText` at every step of a run of key presses. */
  predicate RunKeepsNumberText(s: State, keys: seq<Key>, env: Env)
    decreases |keys|
  {
    keys == [] ||
    (StepKeepsNumberText(s, keys[0], env) &&
     RunKeepsNumberText(ProcessNewKey(s, keys[0], env), keys[1..], env))
  }

  /** No run of key presses puts two points on the display, provided every
      evaluation, percent and sign rewrite met along the way returns a text
      with at most one point. */
  lemma {:induction false} RunKeepsAtMostOnePoint(s: State, keys: seq<Key>, env: Env)
    requires RunKeepsNumberText(s, keys, env)
    requires AtMostOnePoint(s.displayValue)
    ensures AtMostOnePoint(Run(s, keys, env).displayValue)
    decreases |keys|
  {
    if keys != [] {
      KeyKeepsAtMostOnePoint(s, keys[0], env);
      RunKeepsAtMostOnePoint(ProcessNewKey(s, keys[0], env), keys[1..], env);
    }
  }

  // ----- operator chaining and errors -----

  /** "2 + 3 =" shows what the evaluator makes of "2+3", with no operator pending. */
  lemma AddThenEquals(env: Env)
    ensures Run(Initial, ["2", "+", "3", "="], env).displayValue == EvaluationText(env.evaluate("2+3"))
    ensures Run(Initial, ["2", "+", "3", "="], env).operator == None
  {
    var s1 := ProcessNewKey(Initial, "2", env);
    var s2 := ProcessNewKey(s1, "+", env);
    var s3 := ProcessNewKey(s2, "3", env);
    assert Expression(s3) == "2+3";
  }

  /** "2 + 3 +" latches the sum as first operand with "+" pending. */
  lemma AddThenAdd(env: Env)
    ensures Run(Initial, ["2", "+", "3", "+"], env).firstOperand == EvaluationText(env.evaluate("2+3"))
    ensures Run(Initial, ["2", "+", "3", "+"], env).operator == Some("+")
    ensures Run(Initial, ["2", "+", "3", "+"], env).waitingForOperand
  {
    var s1 := ProcessNewKey(Initial, "2", env);
    var s2 := ProcessNewKey(s1, "+", env);
    var s3 := ProcessNewKey(s2, "3", env);
    assert Expression(s3) == "2+3";
  }

  /** "5 / 0 =" shows "Error" when the evaluator fails or yields "Infinity",
      and the next digit starts a fresh number. */
  lemma DivideByZeroRecovers(env: Env)
    requires env.evaluate("5/0") == None || env.evaluate("5/0") == Some("Infinity")
    ensures Run(Initial, ["5", "/", "0", "="], env).displayValue == "Error"
    ensures Run(Initial, ["5", "/", "0", "=", "7"], env).displayValue == "7"
  {
    var s1 := ProcessNewKey(Initial, "5", env);
    var s2 := ProcessNewKey(s1, "/", env);
    var s3 := ProcessNewKey(s2, "0", env);
    assert Expression(s3) == "5/0";
    var s4 := ProcessNewKey(s3, "=", env);
    assert Run(Initial, ["5", "/", "0", "=", "7"], env) == Run(s4, ["7"], env);
  }

  /** Only an exact "Infinity" is turned into "Error": a "-Infinity" result is
      shown as is, whichever operator key completes the operation. */
  lemma NegativeInfinityShown(s: State, op: Key, env: Env)
    requires op in Operators
    requires !Latches(s)
    requires env.evaluate(Expression(s)) == Some("-Infinity")
    ensures ProcessNewKey(s, op, env).displayValue == "-Infinity"
    ensures ProcessNewKey(s, op, env).firstOperand == "-Infinity"
  {
  }

  /** The first clear after an entry shows "0" and keeps the pending operation;
      the second resets everything. */
  lemma ClearKeepsThenResets(s: State, env: Env)
    requires !s.clearAll
    ensures SameOperation(s, ProcessNewKey(s, ClearKey, env))
    ensures ProcessNewKey(s, ClearKey, env).displayValue == "0"
    ensures ProcessNewKey(ProcessNewKey(s, ClearKey, env), ClearKey, env) == Initial
  {
  }
}
