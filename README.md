# Calculator key-input state machine

A model of the React calculator widget in `src/components/Calculator.js`.
The widget keeps one state record with five fields: `displayValue`, `operator`,
`waitingForOperand`, `firstOperand` and `clearAll`. A key press either replaces
the record with a new one or leaves it untouched. Two presses leave it untouched:
"." when the machine is not waiting for an operand and the display already has
a point, and an unrecognised key. One dispatcher sorts each key into one of four groups:

- a digit, which extends or restarts the display;
- an operator (`/ * - + =`), which latches the current operand or evaluates the
  pending operation and chains it;
- a function key: clear (two stages, "C" and then "AC"), sign toggle, decimal
  point or percent;
- anything else, which is ignored.

The display component works out how many fraction digits to ask for from the
position of the first ".". The locale rendering throws a range error when
that count exceeds its limit, and then the component fails to render. It
renders the value in locale form, or in
scientific notation when the locale text is too long. It shrinks any final
text longer than six characters.

Each key handler is modelled as a function from the old record to its
replacement. The expression evaluator is a function-valued parameter: it
returns `None` where the library throws and the result text otherwise. So are
the floating-point percent and sign-toggle rewrites, and the locale and
exponential renderings of the display.

Files:
- `wrappers.dfy` (module `Wrappers`): the optional value used for evaluator
  failures and for a locale rendering that throws.
- `strings.dfy` (module `Strings`): JavaScript's `indexOf` and `substring` on
  text without characters above U+FFFF (indices count characters), `.length`
  in UTF-16 code units, and character counting.
- `display.dfy` (module `Display`): fraction-digit count, the choice of
  rendering, and the scale hint.
- `calculator.dfy` (module `Calculator`): the state record, the initial state,
  one function per key handler, and the dispatcher.
- `properties.dfy` (module `CalculatorProperties`): properties that span
  several key presses. These include point idempotence, the two-stage clear,
  digit entry with zero suppression, the at-most-one-point invariant, the
  invariants every reachable state keeps, and the chaining scenarios.
- `corrected.dfy` (module `Corrected`): the two findings below. It holds the
  as-written counterexamples and a corrected operator handler with its
  intended properties.

Notes on the source:
- `CalculatorDisplay` passes two string lengths through the expression
  evaluator (`evaluate(value.length)`). The library turns a number argument
  into its text and parses it back, so the model uses the lengths directly.
- A full clear sets `firstOperand` to "0" rather than to "no first operand".
  The model follows the code.

## Model

| member | source | states |
|---|---|---|
| Strings.IndexOf | src/components/Calculator.js:131 | -1 exactly when the character is absent; otherwise the index of its first occurrence |
| Strings.Utf16Length | src/components/Calculator.js:49 | JavaScript's `.length`: between one and two code units per character, and exactly one per character when none lies above U+FFFF |
| Strings.Substring | src/components/Calculator.js:14 | JavaScript substring: the result is the slice between the two indices, each clamped into the string's bounds, taken in ascending order when they are reversed |
| Display.FractionDigits | src/components/Calculator.js:13-16 | 0 when the value has no "."; otherwise the number of characters after the first "." |
| Display.FractionDigitsOfTyped | src/components/Calculator.js:13-16 | a whole part without a point, then ".", then a fraction part asks for exactly as many digits as the fraction part has |
| Display.ScaleHint | src/components/Calculator.js:48-49 | "scale(0.36)" exactly when the text is longer than 6 UTF-16 code units, and "scale(1)" exactly otherwise |
| Display.AstralDigitsShrink | src/components/Calculator.js:48-49 | four digits from above U+FFFF are eight UTF-16 code units long, and the text is shrunk |
| Display.LastThree | src/components/Calculator.js:31-34 | the last three characters, or the whole string when it is shorter |
| Display.Scientific | src/components/Calculator.js:28-41 | the 12-digit exponential form, or, when that ends in "e+0", the 15-digit form without its last three characters |
| Display.FormattedText | src/components/Calculator.js:21-47 | a throwing locale rendering gives no text, and only that gives none; a locale text of "NaN" shows "Error"; a locale text of at most 15 UTF-16 code units is shown as is; a longer one falls back to scientific notation, and a "NaN" fallback shows "Overflow Error" |
| Display.Render | src/components/Calculator.js:48-53 | the display renders exactly when the formatted text exists; it shows that text, shrunk exactly when it is longer than 6 UTF-16 code units |
| Calculator.Initial | src/components/Calculator.js:60-66 | the record the component starts with: display "0", no operator, not waiting, first operand "0", clearAll set |
| Calculator.Latches | src/components/Calculator.js:98 | an operator key only latches when the first operand is "0", no operator is pending, or an operand is awaited |
| Calculator.ProcessDigit | src/components/Calculator.js:68-90 | keeps operator and first operand and clears both flags; while waiting the display becomes the digit; otherwise a bare "0" is replaced and any other display is extended |
| Calculator.EvaluationText | src/components/Calculator.js:109-116 | the shown text is "Error" exactly for a failure or an "Infinity" result (or a literal "Error"), and is never "Infinity"; any other result is shown as is |
| Calculator.Expression | src/components/Calculator.js:108 | the evaluated text is the first operand, then the operator, then the display, in that order |
| Calculator.ProcessOperator | src/components/Calculator.js:92-127 | afterwards the machine waits, clearAll is off and the display equals the first operand; when latching, the display is kept and the key becomes the operator; otherwise the display is the evaluation text and the operator is null for "=" and the key otherwise |
| Calculator.ProcessPoint | src/components/Calculator.js:129-152 | the display always contains "." afterwards; while waiting it becomes "0."; otherwise "." is appended when absent; when "." is already present nothing at all changes |
| Calculator.ProcessPercentage | src/components/Calculator.js:154-164 | the display is replaced by the opaque percent rewrite; both flags are cleared and the pending operation is kept |
| Calculator.ProcessPlusMinusToggle | src/components/Calculator.js:166-176 | the display is replaced by the opaque sign rewrite; both flags are cleared and the pending operation is kept |
| Calculator.ProcessClear | src/components/Calculator.js:178-191 | the display becomes "0" and clearAll is set; with clearAll set this is the initial state; otherwise operator, first operand and the waiting flag are kept |
| Calculator.ProcessFunctionKey | src/components/Calculator.js:193-210 | "C", "±", "." and "%" reach their own handlers; any other key leaves the state unchanged |
| Calculator.ProcessNewKey | src/components/Calculator.js:216-229 | digits go to the digit handler and `/ * - + =` to the operator handler; the four function keys go to their handlers; every other key leaves the state unchanged |
| CalculatorProperties.PointIdempotent | src/components/Calculator.js:129-152 | pressing "." twice gives the same state as pressing it once |
| CalculatorProperties.ClearTwiceResets | src/components/Calculator.js:178-191 | two clears from any state give the initial state |
| CalculatorProperties.ClearKeepsThenResets | src/components/Calculator.js:178-191 | the first clear after an entry shows "0" and keeps the pending operation; the second is a full reset |
| CalculatorProperties.DigitKeepsAtMostOnePoint | src/components/Calculator.js:79-82 | a digit key preserves the at-most-one-point invariant |
| CalculatorProperties.PointKeepsAtMostOnePoint | src/components/Calculator.js:131-150 | the point key preserves the at-most-one-point invariant |
| CalculatorProperties.KeyKeepsAtMostOnePoint | src/components/Calculator.js:216-229 | every key preserves the at-most-one-point invariant, provided the one opaque result it consults has at most one point: the evaluator's text for the expression it builds, or the percent or sign rewrite of the current display |
| CalculatorProperties.RunKeepsAtMostOnePoint | src/components/Calculator.js:216-229 | the invariant holds after any sequence of key presses, provided that proviso holds at each step of the sequence |
| CalculatorProperties.DigitsAppend | src/components/Calculator.js:79-88 | digits typed onto a display other than "0", while not waiting, are appended in order; the pending operation is kept |
| CalculatorProperties.DigitsFromZero | src/components/Calculator.js:68-90 | digits typed onto a display of "0" show their concatenation with leading zeros suppressed ("0" if all are zeros); the pending operation is kept |
| CalculatorProperties.DigitsAfterReset | src/components/Calculator.js:60-90 | from the initial state, a digit sequence shows its zero-suppressed concatenation and no operator is pending |
| CalculatorProperties.TypedFractionDigits | src/components/Calculator.js:13-23 | from the initial state, "." then any digits asks the locale rendering for exactly as many fraction digits as were typed, so every count is reachable |
| CalculatorProperties.InitialConsistent | src/components/Calculator.js:60-66 | the initial state meets the reachable-state facts (clearAll set with display "0"; not waiting; any pending operator an operator key) and has no operator pending |
| CalculatorProperties.KeyKeepsConsistent | src/components/Calculator.js:216-229 | every key keeps these facts: clearAll means the display is "0"; waiting without clearAll means the display equals the first operand; a pending operator is one of `/ * - + =` |
| CalculatorProperties.RunKeepsConsistent | src/components/Calculator.js:216-229 | the same facts hold after any sequence of key presses |
| CalculatorProperties.AddThenEquals | src/components/Calculator.js:98-125 | "2 + 3 =" shows the evaluation text of "2+3" and leaves no operator pending |
| CalculatorProperties.AddThenAdd | src/components/Calculator.js:98-125 | "2 + 3 +" latches the evaluation text of "2+3" as first operand, with "+" pending and the machine waiting |
| CalculatorProperties.DivideByZeroRecovers | src/components/Calculator.js:108-125 | "5 / 0 =" shows "Error" when the evaluator fails or yields "Infinity"; a following "7" shows "7" |
| CalculatorProperties.NegativeInfinityShown | src/components/Calculator.js:114-116 | whichever operator key completes the operation, a "-Infinity" result is shown as is, not as "Error", and becomes the first operand |
| Corrected.ZeroOperandIgnored | src/components/Calculator.js:98-106 | as written, "- 3 =" from the initial state shows "3" and leaves "=" pending, whatever the evaluator does |
| Corrected.ZeroResultIgnored | src/components/Calculator.js:98-125 | as written, when "5-5" evaluates to "0", "5 - 5 - 3 =" shows "3" |
| Corrected.EqualsLatchedAsOperator | src/components/Calculator.js:98-106 | as written, "2 =" leaves "=" pending, and "2 = 3 +" shows the evaluation text of "2=3" |
| Corrected.ProcessOperatorCorrected | src/components/Calculator.js:92-127 | corrected handler: a pending operation with a fresh operand is always evaluated; "=" is never left pending; otherwise as the original |
| Corrected.ProcessNewKeyCorrected | src/components/Calculator.js:216-229 | the dispatcher with the corrected operator handler |
| Corrected.ZeroOperandEvaluated | src/components/Calculator.js:98-125 | corrected: "- 3 =" shows the evaluation text of "0-3" |
| Corrected.OperatorAlwaysBinary | src/components/Calculator.js:98-125 | corrected: in every reachable state the pending operator is one of `/ * - +`, so the evaluator only ever sees operand, binary operator, operand |
| Corrected.EqualsNotLatched | src/components/Calculator.js:98-106 | corrected: "2 = 3 +" latches 3 with "+" pending |

## Findings

| source | as written | input that shows it | evidently intended | confidence | as-written member | corrected member |
|---|---|---|---|---|---|---|
| src/components/Calculator.js:98 | an operator key only latches whenever `firstOperand` is "0", even when the user typed or computed that 0 | from reset, "- 3 =" shows 3; also "5 - 5 - 3 =" shows 3 when "5-5" evaluates to 0 | a first operand of zero is combined like any other: "- 3 =" shows -3 | high for the trace, which is independent of the evaluator; not executed | Corrected.ZeroOperandIgnored | Corrected.ZeroOperandEvaluated |
| src/components/Calculator.js:103 | the latching branch stores "=" as the pending operator | "2 = 3 +" hands "2=3" to the evaluator, which rejects it as an assignment, so "Error" is shown | "=" never stays pending, and the evaluator only sees a binary operation | medium, because the "Error" depends on the evaluator library; not executed | Corrected.EqualsLatchedAsOperator | Corrected.OperatorAlwaysBinary |

The machine in module `Calculator` models the code as written. All properties in
`CalculatorProperties` are about it. The corrected operator handler in
`Corrected` reuses every other handler.

## Left out

- Rendering of the component tree, the keypad buttons, `handleClick`'s access to the DOM event, and `src/App.js`: these are user interface only.
- The expression library's `evaluate`: it is a foreign library. It is the `evaluate` parameter of the environment, with `None` standing for a thrown exception.
- Calculator.ProcessPercentage: the `parseFloat`/`toPrecision(16)` arithmetic and the division by 100 are float operations. Only the field effects are modelled, with the new display an opaque function of the old one. So "50 %" showing "0.5" is not proved.
- Calculator.ProcessPlusMinusToggle: the multiplication by -1 is float arithmetic and is modelled the same opaque way. So self-inverse sign toggling is not proved.
- Display.FormattedText: `toLocaleString` and `toExponential` are locale-dependent float formatting and are opaque parameters. Only the selection between their outputs is modelled. Whether the locale rendering throws for a given fraction-digit count is left to that parameter. The limit depends on the runtime: 20 before the 2023 edition of ECMA-402 and 100 since then.
- The diagnostic `console.log` for an unexpected key, and React's state hook: neither changes any state the model tracks.
- Display.FractionDigits: at src/components/Calculator.js:13-16 `indexOf`, `substring` and `.length` count UTF-16 code units, while the model's indices and lengths count characters. The two agree on every text without a character above U+FFFF, and the raw display value passed in at line 233 never holds one: it is built only from keypad characters and the evaluator's number text.
- Calculator.ProcessPoint: the source appends the key it was given, which the dispatcher only ever passes as "."; the model appends "." directly.
