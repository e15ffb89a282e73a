/** The floating calculator of components/Calculator.tsx: a four-function
    state machine over a display string, a pending value, a pending operator
    and a "waiting for operand" flag, driven by on-screen buttons, by the
    keyboard, and by the assistant through an expression tokenizer that
    replays button presses. Numbers are reals; `parseFloat` and `String` are
    the calculator's `parse` and `show` functions, left uninterpreted. */
module Calculator {
  import opened LedgerTypes
  import opened Text
  import Seqs

  datatype Op = Plus | Minus | Times | Divide

  /** The on-screen label of an operator. */
  function OpLabel(op: Op): string {
    match op
    case Plus => "+"
    case Minus => "-"
    case Times => "×"
    case Divide => "÷"
  }

  /** One arithmetic step; dividing by a zero operand yields 0. */
  function Apply(op: Op, prev: real, input: real): (r: real)
    ensures op == Plus ==> r - input == prev
    ensures op == Minus ==> r + input == prev
    ensures op == Times && input != 0.0 ==> r / input == prev
    ensures op == Divide && input != 0.0 ==> r * input == prev
    ensures op == Divide && input == 0.0 ==> r == 0.0
  {
    match op
    case Plus => prev + input
    case Minus => prev - input
    case Times => prev * input
    case Divide => if input != 0.0 then prev / input else 0.0
  }

  datatype CalcState = CalcState(
    display: string,
    prevValue: Option<real>,
    operator: Option<Op>,
    waiting: bool)

  /** The state after "C" (and the initial state). */
  const Cleared: CalcState := CalcState("0", None, None, false)

  /** A pending value exists exactly when a pending operator does. */
  predicate PendingConsistent(s: CalcState) {
    s.prevValue.Some? <==> s.operator.Some?
  }

  datatype Button =
    | Clear | ClearEntry | Percent | Negate | Decimal
    | Digits(caption: string)
    | Operator(op: Op)
    | Equals

  /** How `simulateButtonPress` reads a label: the tests run in this order,
      and any label containing a decimal digit types that label. */
  function Classify(caption: string): Option<Button> {
    if caption == "C" then Some(Clear)
    else if caption == "CE" then Some(ClearEntry)
    else if caption == "%" then Some(Percent)
    else if caption == "±" then Some(Negate)
    else if caption == "." then Some(Decimal)
    else if exists i | 0 <= i < |caption| :: IsDigit(caption[i]) then Some(Digits(caption))
    else if caption == "+" then Some(Operator(Plus))
    else if caption == "-" then Some(Operator(Minus))
    else if caption == "×" then Some(Operator(Times))
    else if caption == "÷" then Some(Operator(Divide))
    else if caption == "=" then Some(Equals)
    else None
  }

  /** `inputDigit` */
  function InputDigitSpec(s: CalcState, digit: string): CalcState {
    if s.waiting then s.(display := digit, waiting := false)
    else s.(display := if s.display == "0" then digit else s.display + digit)
  }

  /** `inputDecimal` */
  function InputDecimalSpec(s: CalcState): CalcState {
    if s.waiting then s.(display := "0.", waiting := false)
    else if '.' in s.display then s
    else s.(display := s.display + ".")
  }

  /** `performOperation`: the first operator stores the displayed value; a
      later one folds the displayed value into the pending one and shows the
      intermediate result. */
  function PerformOperationSpec(s: CalcState, op: Op, parse: string -> real, show: real -> string): CalcState {
    var input := parse(s.display);
    if s.prevValue.None? then
      s.(prevValue := Some(input), operator := Some(op), waiting := true)
    else if s.operator.Some? then
      var result := Apply(s.operator.value, s.prevValue.value, input);
      CalcState(show(result), Some(result), Some(op), true)
    else
      s.(operator := Some(op), waiting := true)
  }

  /** `calculate` */
  function CalculateSpec(s: CalcState, parse: string -> real, show: real -> string): CalcState {
    if s.operator.None? || s.prevValue.None? then s
    else CalcState(show(Apply(s.operator.value, s.prevValue.value, parse(s.display))), None, None, true)
  }

  /** What one button does. */
  function Press(s: CalcState, b: Button, parse: string -> real, show: real -> string): CalcState {
    match b
    case Clear => Cleared
    case ClearEntry => s.(display := "0")
    case Percent => s.(display := show(parse(s.display) / 100.0))
    case Negate => s.(display := show(parse(s.display) * -1.0))
    case Decimal => InputDecimalSpec(s)
    case Digits(caption) => InputDigitSpec(s, caption)
    case Operator(op) => PerformOperationSpec(s, op, parse, show)
    case Equals => CalculateSpec(s, parse, show)
  }

  /** `simulateButtonPress(caption)`: an unrecognised label does nothing. */
  function PressLabel(s: CalcState, caption: string, parse: string -> real, show: real -> string): CalcState {
    match Classify(caption)
    case None => s
    case Some(b) => Press(s, b, parse, show)
  }

  /** A sequence of labels pressed one after another. */
  function RunLabels(s: CalcState, labels: seq<string>, parse: string -> real, show: real -> string): CalcState
    decreases |labels|
  {
    if labels == [] then s
    else PressLabel(RunLabels(s, labels[..|labels| - 1], parse, show), labels[|labels| - 1], parse, show)
  }

  lemma {:induction false} RunLabelsAppend(s: CalcState, x: seq<string>, y: seq<string>,
                                           parse: string -> real, show: real -> string)
    ensures RunLabels(s, x + y, parse, show) == RunLabels(RunLabels(s, x, parse, show), y, parse, show)
    decreases |y|
  {
    if y == [] {
      assert x + y == x;
    } else {
      assert (x + y)[..|x + y| - 1] == x + y[..|y| - 1];
      RunLabelsAppend(s, x, y[..|y| - 1], parse, show);
    }
  }

  /** The on-screen keypad, row by row: each label with the action its
      click runs. */
  const Keypad: seq<(string, Button)> := [
    ("C", Clear), ("CE", ClearEntry), ("%", Percent), ("÷", Operator(Divide)),
    ("7", Digits("7")), ("8", Digits("8")), ("9", Digits("9")), ("×", Operator(Times)),
    ("4", Digits("4")), ("5", Digits("5")), ("6", Digits("6")), ("-", Operator(Minus)),
    ("1", Digits("1")), ("2", Digits("2")), ("3", Digits("3")), ("+", Operator(Plus)),
    ("±", Negate), ("0", Digits("0")), (".", Decimal), ("=", Equals)]

  /** Pressing a key's label through `simulateButtonPress` runs the same
      action as clicking it, so the assistant's presses and the user's
      clicks agree. */
  lemma KeypadMatchesSimulatedPress(i: nat)
    requires i < |Keypad|
    ensures Classify(Keypad[i].0) == Some(Keypad[i].1)
  {
    if i < 4 {
    } else if i < 8 {
    } else if i < 12 {
    } else if i < 16 {
    } else {
    }
  }

  /** An operator press records the new operator, waits for an operand
      and leaves a pending value. With nothing pending it stores the
      displayed value; with a pending operator it shows and keeps the
      intermediate result. */
  lemma OperatorPressMeaning(s: CalcState, op: Op, parse: string -> real, show: real -> string)
    ensures var r := Press(s, Operator(op), parse, show);
            r.operator == Some(op) && r.waiting && r.prevValue.Some? &&
            (s.prevValue.None? ==> r.prevValue == Some(parse(s.display)) && r.display == s.display) &&
            (s.prevValue.Some? && s.operator.Some? ==>
               r.prevValue == Some(Apply(s.operator.value, s.prevValue.value, parse(s.display))) &&
               r.display == show(r.prevValue.value))
  {
  }

  /** After an operator, the next digit starts a new operand. */
  lemma DigitAfterOperatorStartsOperand(s: CalcState, op: Op, d: string,
                                        parse: string -> real, show: real -> string)
    ensures var r := Press(Press(s, Operator(op), parse, show), Digits(d), parse, show);
            r.display == d && !r.waiting && r.operator == Some(op) && r.prevValue.Some?
  {
  }

  /** The decimal point: always present afterwards, never a second one,
      and a repeated press changes nothing. */
  lemma InputDecimalMeaning(s: CalcState)
    ensures var r := InputDecimalSpec(s);
            '.' in r.display && !r.waiting &&
            (multiset(s.display)['.'] <= 1 || s.waiting ==> multiset(r.display)['.'] == 1) &&
            InputDecimalSpec(r) == r &&
            r.prevValue == s.prevValue && r.operator == s.operator
  {
    var r := InputDecimalSpec(s);
    if s.waiting {
      assert r.display == "0.";
      assert multiset(r.display) == multiset{'0', '.'};
    } else if '.' !in s.display {
      assert multiset(r.display) == multiset(s.display) + multiset{'.'};
      assert r.display[|s.display|] == '.';
    } else {
      assert multiset(s.display)['.'] >= 1;
    }
  }

  /** "=" is a no-op exactly when the operator or the pending value is
      missing; otherwise it shows the result, clears both and waits, so a
      second "=" changes nothing. */
  lemma CalculateMeaning(s: CalcState, parse: string -> real, show: real -> string)
    ensures var r := CalculateSpec(s, parse, show);
            (r == s <==> s.operator.None? || s.prevValue.None?) &&
            (s.operator.Some? && s.prevValue.Some? ==>
               r.display == show(Apply(s.operator.value, s.prevValue.value, parse(s.display))) &&
               r.prevValue.None? && r.operator.None? && r.waiting) &&
            CalculateSpec(r, parse, show) == r
  {
  }

  /** Every button keeps a pending value paired with a pending operator. */
  lemma PressKeepsPendingConsistent(s: CalcState, b: Button, parse: string -> real, show: real -> string)
    requires PendingConsistent(s)
    ensures PendingConsistent(Press(s, b, parse, show))
    ensures PendingConsistent(Cleared)
  {
  }

  // ---------------------------------------------------------------
  // The assistant's expression tokenizer: the global matches of
  // /(\d+\.?\d*|[+\-×÷*/])/ in the expression.
  // ---------------------------------------------------------------

  predicate IsOpChar(c: char) {
    c == '+' || c == '-' || c == '×' || c == '÷' || c == '*' || c == '/'
  }

  /** Characters a match can never skip. */
  predicate IsKept(c: char) {
    IsDigit(c) || IsOpChar(c)
  }

  /** Text matching /^\d+\.?\d*$/: a digit, then digits with at most one
      decimal point. */
  predicate IsNumberText(t: string) {
    |t| > 0 && IsDigit(t[0]) &&
    (forall i :: 0 <= i < |t| ==> IsDigit(t[i]) || t[i] == '.') &&
    (forall i, j :: 0 <= i < j < |t| && t[i] == '.' ==> t[j] != '.')
  }

  datatype Token = NumberToken(text: string) | OperatorToken(symbol: char)

  /** The length of the longest run of digits at the start of `s`. */
  function DigitRun(s: string): (n: nat)
    ensures n <= |s|
    ensures forall i :: 0 <= i < n ==> IsDigit(s[i])
    ensures n < |s| ==> !IsDigit(s[n])
    decreases |s|
  {
    if s == [] || !IsDigit(s[0]) then 0 else 1 + DigitRun(s[1..])
  }

  /** The length of the greedy match of `\d+\.?\d*` at the start of `s`. */
  function NumberLength(s: string): (n: nat)
    requires |s| > 0 && IsDigit(s[0])
    ensures 1 <= n <= |s|
    ensures IsNumberText(s[..n])
    ensures n < |s| ==> !IsDigit(s[n]) && (s[n] == '.' ==> '.' in s[..n])
  {
    var d := DigitRun(s);
    if d < |s| && s[d] == '.' then
      var e := DigitRun(s[d + 1..]);
      assert forall i :: d < i < d + 1 + e ==> s[i] == s[d + 1..][i - d - 1];
      assert s[..d + 1 + e][d] == '.';
      d + 1 + e
    else d
  }

  /** The tokens the assistant's expression yields, left to right; a
      character that starts no match is skipped. */
  function Tokenize(s: string): (r: seq<Token>)
    ensures forall t :: t in r ==> (t.NumberToken? ==> IsNumberText(t.text)) &&
                                   (t.OperatorToken? ==> IsOpChar(t.symbol))
    decreases |s|
  {
    if s == [] then []
    else if IsDigit(s[0]) then
      var n := NumberLength(s);
      [NumberToken(s[..n])] + Tokenize(s[n..])
    else if IsOpChar(s[0]) then [OperatorToken(s[0])] + Tokenize(s[1..])
    else Tokenize(s[1..])
  }

  /** The matched text, token after token. */
  function TokenTexts(ts: seq<Token>): string
    decreases |ts|
  {
    if ts == [] then []
    else (match ts[0] case NumberToken(x) => x case OperatorToken(c) => [c]) + TokenTexts(ts[1..])
  }

  /** Every digit and operator character of the expression is matched, in
      order: the only characters the tokenizer drops are the others (a
      letter, a space, a second decimal point). */
  lemma {:induction false} TokenizeKeepsDigitsAndOperators(s: string)
    ensures Seqs.Filter(TokenTexts(Tokenize(s)), IsKept) == Seqs.Filter(s, IsKept)
    decreases |s|
  {
    if s != [] {
      var n := if IsDigit(s[0]) then NumberLength(s) else 1;
      TokenizeKeepsDigitsAndOperators(s[n..]);
      assert s == s[..n] + s[n..];
      Seqs.FilterAppend(s[..n], s[n..], IsKept);
      var rest := TokenTexts(Tokenize(s[n..]));
      if IsDigit(s[0]) || IsOpChar(s[0]) {
        assert TokenTexts(Tokenize(s)) == s[..n] + rest;
        Seqs.FilterAppend(s[..n], rest, IsKept);
      } else {
        assert Seqs.Filter(s[..1], IsKept) == [];
      }
    }
  }

  /** The label pressed for an operator token. */
  function OperatorLabel(c: char): string {
    if c == '*' then "×" else if c == '/' then "÷" else [c]
  }

  /** A number token is pressed character by character. */
  function CharLabels(t: string): seq<string>
    decreases |t|
  {
    if t == [] then [] else CharLabels(t[..|t| - 1]) + [[t[|t| - 1]]]
  }

  /** The labels pressed for one token. */
  function LabelsOf(t: Token): seq<string> {
    match t
    case NumberToken(x) => CharLabels(x)
    case OperatorToken(c) => [OperatorLabel(c)]
  }

  function TokenLabels(ts: seq<Token>): seq<string>
    decreases |ts|
  {
    if ts == [] then [] else TokenLabels(ts[..|ts| - 1]) + LabelsOf(ts[|ts| - 1])
  }

  lemma TokenLabelsLast(ts: seq<Token>, t: Token)
    ensures TokenLabels(ts + [t]) == TokenLabels(ts) + LabelsOf(t)
  {
    assert (ts + [t])[..|ts|] == ts;
  }

  /** The presses of an assistant calculation: "C", the tokens, "=". */
  function AiLabels(expression: string): seq<string> {
    ["C"] + TokenLabels(Tokenize(expression)) + ["="]
  }

  /** The operator an operator character selects. */
  function OpOfChar(c: char): Op
    requires IsOpChar(c)
  {
    if c == '+' then Plus
    else if c == '-' then Minus
    else if c == '×' || c == '*' then Times
    else Divide
  }

  /** A number typed from "0" or after an operator is shown as typed,
      unless it has a leading zero followed by a digit. */
  predicate NoLeadingZero(t: string) {
    |t| > 0 && (t[0] != '0' || |t| == 1 || t[1] == '.')
  }

  /** Pressing one more label after a sequence. */
  lemma RunLast(s: CalcState, ls: seq<string>, l: string, parse: string -> real, show: real -> string)
    ensures RunLabels(s, ls + [l], parse, show) == PressLabel(RunLabels(s, ls, parse, show), l, parse, show)
  {
    assert (ls + [l])[..|ls|] == ls;
  }

  lemma PressDigitChar(s: CalcState, d: char, parse: string -> real, show: real -> string)
    requires IsDigit(d)
    ensures PressLabel(s, [d], parse, show) == InputDigitSpec(s, [d])
  {
    assert IsDigit([d][0]);
  }

  lemma PressDot(s: CalcState, parse: string -> real, show: real -> string)
    ensures PressLabel(s, ".", parse, show) == InputDecimalSpec(s)
  {
  }

  lemma {:induction false} TypePrefix(s: CalcState, t: string, k: nat, parse: string -> real, show: real -> string)
    requires IsNumberText(t) && NoLeadingZero(t)
    requires s.waiting || s.display == "0"
    requires 1 <= k <= |t|
    ensures RunLabels(s, CharLabels(t[..k]), parse, show) == s.(display := t[..k], waiting := false)
    decreases k
  {
    var p := t[..k - 1];
    var d := t[k - 1];
    assert t[..k] == p + [d];
    assert t[..k][..k - 1] == p;
    assert CharLabels(t[..k]) == CharLabels(p) + [[d]];
    RunLast(s, CharLabels(p), [d], parse, show);
    if k == 1 {
      assert p == [];
      assert RunLabels(s, CharLabels(p), parse, show) == s;
      PressDigitChar(s, d, parse, show);
    } else {
      TypePrefix(s, t, k - 1, parse, show);
      var q := s.(display := p, waiting := false);
      if d == '.' {
        assert '.' !in p by {
          forall i | 0 <= i < |p| ensures p[i] != '.' {
            assert t[i] == p[i];
          }
        }
        PressDot(q, parse, show);
      } else {
        assert IsDigit(d);
        assert p != "0";
        PressDigitChar(q, d, parse, show);
      }
    }
  }

  /** Typing a number token shows exactly the token and keeps the pending
      value and operator. */
  lemma TypeNumber(s: CalcState, t: string, parse: string -> real, show: real -> string)
    requires IsNumberText(t) && NoLeadingZero(t)
    requires s.waiting || s.display == "0"
    ensures RunLabels(s, CharLabels(t), parse, show) == s.(display := t, waiting := false)
  {
    TypePrefix(s, t, |t|, parse, show);
    assert t[..|t|] == t;
  }

  lemma {:induction false} DigitRunOf(x: string, y: string)
    requires forall i :: 0 <= i < |x| ==> IsDigit(x[i])
    requires y == [] || !IsDigit(y[0])
    ensures DigitRun(x + y) == |x|
    decreases |x|
  {
    if x == [] {
      assert x + y == y;
    } else {
      assert (x + y)[1..] == x[1..] + y;
      DigitRunOf(x[1..], y);
    }
  }

  /** A number followed by an operator character (or the end) is matched
      whole. */
  lemma NumberLengthOf(a: string, y: string)
    requires IsNumberText(a)
    requires y == [] || IsOpChar(y[0])
    ensures NumberLength(a + y) == |a|
  {
    if '.' in a {
      var d :| 0 <= d < |a| && a[d] == '.';
      NumberLengthWithDot(a, y, d);
    } else {
      DigitRunOf(a, y);
    }
  }

  lemma NumberLengthWithDot(a: string, y: string, d: nat)
    requires IsNumberText(a) && d < |a| && a[d] == '.'
    requires y == [] || IsOpChar(y[0])
    ensures NumberLength(a + y) == |a|
  {
    var s := a + y;
    assert forall i :: 0 <= i < d ==> a[..d][i] == a[i] && a[i] != '.';
    DigitRunOf(a[..d], a[d..] + y);
    assert s == a[..d] + (a[d..] + y);
    assert DigitRun(s) == d && s[d] == '.';
    var rest := a[d + 1..];
    forall i | 0 <= i < |rest|
      ensures IsDigit(rest[i])
    {
      assert rest[i] == a[d + 1 + i];
    }
    assert s[d + 1..] == a[d + 1..] + y;
    DigitRunOf(a[d + 1..], y);
  }

  /** A number followed by an operator character (or the end) becomes
      one number token. */
  lemma TokenizeNumberFirst(a: string, y: string)
    requires IsNumberText(a)
    requires y == [] || IsOpChar(y[0])
    ensures Tokenize(a + y) == [NumberToken(a)] + Tokenize(y)
  {
    NumberLengthOf(a, y);
    var s := a + y;
    assert s[..|a|] == a && s[|a|..] == y;
  }

  lemma TokenizeOperatorFirst(c: char, y: string)
    requires IsOpChar(c)
    ensures Tokenize([c] + y) == [OperatorToken(c)] + Tokenize(y)
  {
    assert ([c] + y)[1..] == y;
  }

  /** A binary expression yields its two numbers and its operator. */
  lemma TokenizeBinary(a: string, c: char, b: string)
    requires IsNumberText(a) && IsOpChar(c) && IsNumberText(b)
    ensures Tokenize(a + [c] + b) == [NumberToken(a), OperatorToken(c), NumberToken(b)]
  {
    var y := [c] + b;
    assert a + [c] + b == a + y;
    TokenizeNumberFirst(b, []);
    assert b + [] == b;
    assert Tokenize([]) == [];
    TokenizeOperatorFirst(c, b);
    assert Tokenize(y) == [OperatorToken(c), NumberToken(b)];
    TokenizeNumberFirst(a, y);
  }

  lemma TokenLabelsOfThree(x: Token, y: Token, z: Token)
    ensures TokenLabels([x, y, z]) == LabelsOf(x) + LabelsOf(y) + LabelsOf(z)
  {
    TokenLabelsOfTwo(x, y);
    TokenLabelsLast([x, y], z);
    assert [x, y] + [z] == [x, y, z];
  }

  lemma TokenLabelsOfTwo(x: Token, y: Token)
    ensures TokenLabels([x, y]) == LabelsOf(x) + LabelsOf(y)
  {
    TokenLabelsOfOne(x);
    TokenLabelsLast([x], y);
    assert [x] + [y] == [x, y];
  }

  lemma TokenLabelsOfOne(x: Token)
    ensures TokenLabels([x]) == LabelsOf(x)
  {
    TokenLabelsLast([], x);
    assert [] + [x] == [x];
    assert TokenLabels([]) + LabelsOf(x) == LabelsOf(x);
  }

  /** The presses of an assistant calculation of a binary expression. */
  lemma AiLabelsBinary(a: string, c: char, b: string)
    requires IsNumberText(a) && IsOpChar(c) && IsNumberText(b)
    ensures AiLabels(a + [c] + b) == ["C"] + CharLabels(a) + [OperatorLabel(c)] + CharLabels(b) + ["="]
  {
    TokenizeBinary(a, c, b);
    TokenLabelsOfThree(NumberToken(a), OperatorToken(c), NumberToken(b));
    Regroup(CharLabels(a), OperatorLabel(c), CharLabels(b));
  }

  lemma Regroup(x: seq<string>, l: string, y: seq<string>)
    ensures ["C"] + (x + [l] + y) + ["="] == ["C"] + x + [l] + y + ["="]
  {
  }

  lemma PressClearLabel(s: CalcState, parse: string -> real, show: real -> string)
    ensures RunLabels(s, ["C"], parse, show) == Cleared
  {
    RunLast(s, [], "C", parse, show);
  }

  lemma PressOperatorLabel(s: CalcState, c: char, parse: string -> real, show: real -> string)
    requires IsOpChar(c)
    ensures PressLabel(s, OperatorLabel(c), parse, show) == PerformOperationSpec(s, OpOfChar(c), parse, show)
  {
    assert Classify(OperatorLabel(c)) == Some(Operator(OpOfChar(c)));
  }

  lemma PressEqualsLabel(s: CalcState, parse: string -> real, show: real -> string)
    ensures PressLabel(s, "=", parse, show) == CalculateSpec(s, parse, show)
  {
  }

  /** An assistant calculation of `a op b` ends showing `show(a op b)`,
      whatever the calculator showed before: "C" clears, both numbers are
      typed as written, the operator stores the first, and "=" applies it. */
  lemma AiArithmetic(s: CalcState, a: string, c: char, b: string, parse: string -> real, show: real -> string)
    requires IsNumberText(a) && NoLeadingZero(a) && IsOpChar(c) && IsNumberText(b) && NoLeadingZero(b)
    ensures RunLabels(s, AiLabels(a + [c] + b), parse, show) ==
            CalcState(show(Apply(OpOfChar(c), parse(a), parse(b))), None, None, true)
  {
    AiLabelsBinary(a, c, b);
    var op := OpOfChar(c);
    var x1 := ["C"];
    var x2 := x1 + CharLabels(a);
    var x3 := x2 + [OperatorLabel(c)];
    var x4 := x3 + CharLabels(b);
    var s2 := CalcState(a, None, None, false);
    var s3 := CalcState(a, Some(parse(a)), Some(op), true);
    var s4 := CalcState(b, Some(parse(a)), Some(op), false);

    PressClearLabel(s, parse, show);
    RunLabelsAppend(s, x1, CharLabels(a), parse, show);
    TypeNumber(Cleared, a, parse, show);
    assert RunLabels(s, x2, parse, show) == s2;

    RunLast(s, x2, OperatorLabel(c), parse, show);
    PressOperatorLabel(s2, c, parse, show);
    assert RunLabels(s, x3, parse, show) == s3;

    RunLabelsAppend(s, x3, CharLabels(b), parse, show);
    TypeNumber(s3, b, parse, show);
    assert RunLabels(s, x4, parse, show) == s4;

    RunLast(s, x4, "=", parse, show);
    PressEqualsLabel(s4, parse, show);
  }

  // ---------------------------------------------------------------
  // Keyboard and dragging.
  // ---------------------------------------------------------------

  datatype KeyOutcome =
    | Ignored
    | Pressed(button: Button, highlight: string)
    | Closed

  /** The keyboard handler's map from `KeyboardEvent.key` to the action it
      runs and the label it highlights. */
  function KeyAction(key: string): KeyOutcome {
    if |key| == 1 && IsDigit(key[0]) then Pressed(Digits(key), key)
    else if key == "+" then Pressed(Operator(Plus), "+")
    else if key == "-" then Pressed(Operator(Minus), "-")
    else if key == "*" then Pressed(Operator(Times), "×")
    else if key == "/" then Pressed(Operator(Divide), "÷")
    else if key == "." || key == "," then Pressed(Decimal, ".")
    else if key == "Enter" || key == "=" then Pressed(Equals, "=")
    else if key == "Escape" then Closed
    else if key == "Backspace" then Pressed(ClearEntry, "CE")
    else if key == "Delete" then Pressed(Clear, "C")
    else if key == "%" then Pressed(Percent, "%")
    else Ignored
  }

  /** A key runs the action of the button it highlights. */
  lemma KeyboardMatchesButtons(key: string)
    ensures KeyAction(key).Pressed? ==> Classify(KeyAction(key).highlight) == Some(KeyAction(key).button)
  {
    if |key| == 1 && IsDigit(key[0]) {
      assert key != "C" && key != "CE" && key != "%" && key != "±" && key != ".";
    }
  }

  /** The calculator's width and the vertical margin kept on screen. */
  const CalcWidth: real := 280.0
  const CalcMarginY: real := 100.0

  /** `Math.max(0, Math.min(v, limit))` */
  function Clamp(v: real, limit: real): (r: real)
    ensures r >= 0.0
    ensures limit >= 0.0 ==> r <= limit
    ensures 0.0 <= v <= limit ==> r == v
    ensures r == v || r == 0.0 || r == limit
  {
    var m := if v < limit then v else limit;
    if m > 0.0 then m else 0.0
  }

  /** The position a drag moves the calculator to: the pointer minus the
      grab offset, kept inside the viewport. */
  function DragPosition(clientX: real, clientY: real, offsetX: real, offsetY: real,
                        innerWidth: real, innerHeight: real): (p: (real, real))
    ensures p.0 >= 0.0 && p.1 >= 0.0
    ensures innerWidth >= CalcWidth ==> p.0 <= innerWidth - CalcWidth
    ensures innerHeight >= CalcMarginY ==> p.1 <= innerHeight - CalcMarginY
  {
    (Clamp(clientX - offsetX, innerWidth - CalcWidth), Clamp(clientY - offsetY, innerHeight - CalcMarginY))
  }

  /** The calculator component's state. */
  class Panel {
    var display: string
    var prevValue: Option<real>
    var operator: Option<Op>
    var waitingForOperand: bool
    /** `parseFloat` */
    const parse: string -> real
    /** `String(number)` */
    const show: real -> string

    function State(): CalcState
      reads this
    {
      CalcState(display, prevValue, operator, waitingForOperand)
    }

    constructor (parse: string -> real, show: real -> string)
      ensures State() == Cleared && this.parse == parse && this.show == show
    {
      display := "0";
      prevValue := None;
      operator := None;
      waitingForOperand := false;
      this.parse := parse;
      this.show := show;
    }

    method InputDigit(digit: string)
      modifies this
      ensures State() == Press(old(State()), Digits(digit), parse, show)
    {
      if waitingForOperand {
        waitingForOperand := false;
        display := digit;
      } else {
        display := if display == "0" then digit else display + digit;
      }
    }

    method InputDecimal()
      modifies this
      ensures State() == Press(old(State()), Decimal, parse, show)
    {
      if waitingForOperand {
        display := "0.";
        waitingForOperand := false;
        return;
      }
      if '.' !in display {
        display := display + ".";
      }
    }

    method ClearAll()
      modifies this
      ensures State() == Cleared
    {
      display := "0";
      prevValue := None;
      operator := None;
      waitingForOperand := false;
    }

    /** Clears the display only. */
    method ClearEntry()
      modifies this
      ensures State() == old(State()).(display := "0")
    {
      display := "0";
    }

    method ToggleSign()
      modifies this
      ensures State() == Press(old(State()), Negate, parse, show)
    {
      display := show(parse(display) * -1.0);
    }

    method InputPercent()
      modifies this
      ensures State() == Press(old(State()), Percent, parse, show)
    {
      display := show(parse(display) / 100.0);
    }

    method PerformOperation(nextOperator: Op)
      modifies this
      ensures State() == Press(old(State()), Operator(nextOperator), parse, show)
    {
      var inputValue := parse(display);
      if prevValue.None? {
        prevValue := Some(inputValue);
      } else if operator.Some? {
        var result := Apply(operator.value, prevValue.value, inputValue);
        display := show(result);
        prevValue := Some(result);
      }
      waitingForOperand := true;
      operator := Some(nextOperator);
    }

    method Calculate()
      modifies this
      ensures State() == Press(old(State()), Equals, parse, show)
    {
      if operator.None? || prevValue.None? {
        return;
      }
      var inputValue := parse(display);
      var result := Apply(operator.value, prevValue.value, inputValue);
      prevValue := None;
      operator := None;
      waitingForOperand := true;
      display := show(result);
    }

    method SimulateButtonPress(caption: string)
      modifies this
      ensures State() == PressLabel(old(State()), caption, parse, show)
    {
      match Classify(caption)
      case None =>
      case Some(b) =>
        match b
        case Clear => ClearAll();
        case ClearEntry => ClearEntry();
        case Percent => InputPercent();
        case Negate => ToggleSign();
        case Decimal => InputDecimal();
        case Digits(l) => InputDigit(l);
        case Operator(op) => PerformOperation(op);
        case Equals => Calculate();
    }

    /** The keyboard handler. It is attached only while the calculator is
        open and not driven by the assistant, and it ignores keys typed
        into an input field. */
    method HandleKeyDown(key: string, isOpen: bool, aiControlled: bool, typingInField: bool)
      returns (outcome: KeyOutcome)
      modifies this
      ensures outcome == if !isOpen || aiControlled || typingInField then Ignored else KeyAction(key)
      ensures outcome.Pressed? ==> State() == Press(old(State()), outcome.button, parse, show)
      ensures !outcome.Pressed? ==> State() == old(State())
    {
      if !isOpen || aiControlled || typingInField {
        return Ignored;
      }
      outcome := KeyAction(key);
      if outcome.Pressed? {
        match outcome.button
        case Clear => ClearAll();
        case ClearEntry => ClearEntry();
        case Percent => InputPercent();
        case Negate => ToggleSign();
        case Decimal => InputDecimal();
        case Digits(l) => InputDigit(l);
        case Operator(op) => PerformOperation(op);
        case Equals => Calculate();
      }
    }

    /** Presses the characters of a number token one by one. */
    method PressNumber(t: string)
      modifies this
      ensures State() == RunLabels(old(State()), CharLabels(t), parse, show)
    {
      ghost var start := State();
      assert t[..0] == [];
      for j := 0 to |t|
        invariant State() == RunLabels(start, CharLabels(t[..j]), parse, show)
      {
        assert t[..j + 1][..j] == t[..j];
        assert CharLabels(t[..j + 1]) == CharLabels(t[..j]) + [[t[j]]];
        RunLast(start, CharLabels(t[..j]), [t[j]], parse, show);
        SimulateButtonPress([t[j]]);
      }
      assert t[..|t|] == t;
    }

    /** Presses the labels of one token. */
    method PressToken(token: Token)
      modifies this
      ensures State() == RunLabels(old(State()), LabelsOf(token), parse, show)
    {
      match token
      case NumberToken(t) =>
        PressNumber(t);
      case OperatorToken(c) =>
        RunLast(State(), [], OperatorLabel(c), parse, show);
        SimulateButtonPress(OperatorLabel(c));
    }

    /** Presses the labels of a sequence of tokens, in order. */
    method PressTokens(tokens: seq<Token>)
      modifies this
      ensures State() == RunLabels(old(State()), TokenLabels(tokens), parse, show)
    {
      ghost var start := State();
      assert tokens[..0] == [];
      for i := 0 to |tokens|
        invariant State() == RunLabels(start, TokenLabels(tokens[..i]), parse, show)
      {
        assert tokens[..i + 1] == tokens[..i] + [tokens[i]];
        TokenLabelsLast(tokens[..i], tokens[i]);
        PressToken(tokens[i]);
        RunLabelsAppend(start, TokenLabels(tokens[..i]), LabelsOf(tokens[i]), parse, show);
      }
      assert tokens[..|tokens|] == tokens;
    }

    /** The `ai-calculate` listener: clear, press every token, press "=",
        and report the display. */
    method AiCalculate(expression: string) returns (result: string)
      modifies this
      ensures State() == RunLabels(old(State()), AiLabels(expression), parse, show)
      ensures result == display
    {
      ghost var start := State();
      SimulateButtonPress("C");
      RunLast(start, [], "C", parse, show);
      assert [] + ["C"] == ["C"];
      var tokens := Tokenize(expression);
      PressTokens(tokens);
      RunLabelsAppend(start, ["C"], TokenLabels(tokens), parse, show);
      RunLast(start, ["C"] + TokenLabels(tokens), "=", parse, show);
      SimulateButtonPress("=");
      result := display;
    }
  }
}
