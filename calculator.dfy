/**
 * The calculator's entry state machine (calculator/scripts/main.js): the
 * display text and the three module variables `firstNumber`,
 * `currentOperator` and `waitingForSecondNumber`.
 *
 * Numbers stay abstract. `firstNumber` is kept as the display text that
 * `parseFloat` read it from; `calculateResult` is told whether the second
 * operand parses to zero and what text the arithmetic result prints as.
 */
module CalculatorEntry {
  import opened Wrappers

  datatype CalcState = CalcState(
    display: string,
    firstNumber: Option<string>,
    currentOperator: Option<string>,
    waitingForSecondNumber: bool)

  /** The number of decimal points in a display text. */
  function DotCount(s: string): (n: nat)
    ensures n <= |s|
    ensures n == 0 <==> '.' !in s
  {
    if s == [] then 0 else (if s[0] == '.' then 1 else 0) + DotCount(s[1..])
  }

  lemma {:induction false} DotCountConcat(a: string, b: string)
    ensures DotCount(a + b) == DotCount(a) + DotCount(b)
  {
    if a == [] {
      assert a + b == b;
    } else {
      assert (a + b)[1..] == a[1..] + b;
      DotCountConcat(a[1..], b);
    }
  }

  /** setOperation: the display becomes the first operand, the operator is stored, and the next digit starts a new number. */
  function SetOperation(s: CalcState, operator: string): (t: CalcState)
    ensures t.display == s.display
    ensures t.firstNumber == Some(s.display) && t.currentOperator == Some(operator)
    ensures t.waitingForSecondNumber
  {
    s.(firstNumber := Some(s.display), currentOperator := Some(operator), waitingForSecondNumber := true)
  }

  /**
   * addNumber: while waiting, the display becomes exactly `num` and waiting
   * ends; otherwise a display of "0" is replaced by `num` and any other
   * display gets `num` appended.
   */
  function AddNumber(s: CalcState, num: string): (t: CalcState)
    ensures t.firstNumber == s.firstNumber && t.currentOperator == s.currentOperator
    ensures !t.waitingForSecondNumber
    ensures s.waitingForSecondNumber || s.display == "0" ==> t.display == num
    ensures !s.waitingForSecondNumber && s.display != "0" ==> t.display == s.display + num
  {
    if s.waitingForSecondNumber then s.(display := num, waitingForSecondNumber := false)
    else if s.display == "0" then s.(display := num)
    else s.(display := s.display + num)
  }

  /**
   * calculateResult: without a first operand or an operator nothing happens;
   * a division by zero shows "Error" and keeps the pending operation; any
   * other path shows the result and resets the pending operation.
   */
  function CalculateResult(s: CalcState, secondIsZero: bool, resultText: string): (t: CalcState)
    ensures s.firstNumber.None? || s.currentOperator.None? ==> t == s
    ensures s.firstNumber.Some? && s.currentOperator == Some("/") && secondIsZero ==>
      t == s.(display := "Error")
    ensures s.firstNumber.Some? && s.currentOperator.Some? && !(s.currentOperator == Some("/") && secondIsZero) ==>
      t == CalcState(resultText, None, None, false)
  {
    if s.firstNumber.None? || s.currentOperator.None? then s
    else if s.currentOperator.value == "/" && secondIsZero then s.(display := "Error")
    else CalcState(resultText, None, None, false)
  }

  /** clearEntry: only the display is reset. */
  function ClearEntry(s: CalcState): (t: CalcState)
    ensures t.display == "0"
    ensures t.firstNumber == s.firstNumber && t.currentOperator == s.currentOperator
    ensures t.waitingForSecondNumber == s.waitingForSecondNumber
  {
    s.(display := "0")
  }

  /** clearAll: back to the initial state. */
  function ClearAll(s: CalcState): (t: CalcState)
    ensures t == CalcState("0", None, None, false)
  {
    CalcState("0", None, None, false)
  }

  /**
   * addDecimal: while waiting, or on a display of "0", the display becomes
   * "0." and waiting ends; otherwise a point is appended only if the display
   * has none yet.
   */
  function AddDecimal(s: CalcState): (t: CalcState)
    ensures t.firstNumber == s.firstNumber && t.currentOperator == s.currentOperator
    ensures s.waitingForSecondNumber || s.display == "0" ==> t.display == "0." && !t.waitingForSecondNumber
    ensures !s.waitingForSecondNumber && s.display != "0" && '.' !in s.display ==> t == s.(display := s.display + ".")
    ensures !s.waitingForSecondNumber && s.display != "0" && '.' in s.display ==> t == s
    ensures '.' in t.display
  {
    if s.waitingForSecondNumber || s.display == "0" then s.(display := "0.", waitingForSecondNumber := false)
    else if '.' !in s.display then s.(display := s.display + ".")
    else s
  }

  /** deleteLast: one character becomes "0", a longer display loses its last character, an empty one stays empty. */
  function DeleteLast(s: CalcState): (t: CalcState)
    ensures t.firstNumber == s.firstNumber && t.currentOperator == s.currentOperator
    ensures t.waitingForSecondNumber == s.waitingForSecondNumber
    ensures |s.display| == 0 ==> t.display == s.display
    ensures |s.display| == 1 ==> t.display == "0"
    ensures |s.display| > 1 ==> t.display == s.display[..|s.display| - 1]
    ensures s.display != [] ==> t.display != []
  {
    if |s.display| > 0 then
      if |s.display| == 1 then s.(display := "0") else s.(display := s.display[..|s.display| - 1])
    else s
  }

  /** A second decimal point changes nothing. */
  lemma AddDecimalIdempotent(s: CalcState)
    ensures AddDecimal(AddDecimal(s)) == AddDecimal(s)
  {
  }

  /** A display that has at most one decimal point keeps at most one through every entry operation (digits carry no point). */
  lemma EntryKeepsOnePoint(s: CalcState, num: string, operator: string)
    requires DotCount(s.display) <= 1 && '.' !in num
    ensures DotCount(AddNumber(s, num).display) <= 1
    ensures DotCount(AddDecimal(s).display) <= 1
    ensures DotCount(DeleteLast(s).display) <= 1
    ensures DotCount(SetOperation(s, operator).display) <= 1
    ensures DotCount(ClearEntry(s).display) <= 1
    ensures DotCount(ClearAll(s).display) <= 1
  {
    DotCountConcat(s.display, num);
    DotCountConcat(s.display, ".");
    if |s.display| > 1 {
      var d := s.display;
      assert d == d[..|d| - 1] + [d[|d| - 1]];
      DotCountConcat(d[..|d| - 1], [d[|d| - 1]]);
    }
    assert DotCount("0.") == 1;
  }

  /** An operation the calculator cannot finish (missing operand or operator) changes nothing; a finished one leaves nothing pending. */
  lemma CalculateFinishes(s: CalcState, secondIsZero: bool, resultText: string)
    ensures var t := CalculateResult(s, secondIsZero, resultText);
      t.display == "Error" || t == s || (t.firstNumber.None? && t.currentOperator.None? && !t.waitingForSecondNumber)
  {
  }

}

/** The calculator page's module state, changed in place by its button handlers. */
module CalculatorScript {
  import opened Wrappers
  import CalculatorEntry
  /** The page's calculator: the display text and the three module variables. */
  class Calculator {
    var display: string
    var firstNumber: Option<string>
    var currentOperator: Option<string>
    var waitingForSecondNumber: bool

    function State(): CalculatorEntry.CalcState
      reads this
    {
      CalculatorEntry.CalcState(display, firstNumber, currentOperator, waitingForSecondNumber)
    }

    /** The module's initial values, with the display showing whatever the page's input starts with. */
    constructor (initialDisplay: string)
      ensures State() == CalculatorEntry.CalcState(initialDisplay, None, None, false)
    {
      display := initialDisplay;
      firstNumber := None;
      currentOperator := None;
      waitingForSecondNumber := false;
    }

    method SetOperation(operator: string)
      modifies this
      ensures State() == CalculatorEntry.SetOperation(old(State()), operator)
    {
      var currentNumber := display;
      firstNumber := Some(currentNumber);
      currentOperator := Some(operator);
      waitingForSecondNumber := true;
    }

    method AddNumber(num: string)
      modifies this
      ensures State() == CalculatorEntry.AddNumber(old(State()), num)
    {
      if waitingForSecondNumber {
        display := num;
        waitingForSecondNumber := false;
      } else if display == "0" {
        display := num;
      } else {
        display := display + num;
      }
    }

    method CalculateResult(secondIsZero: bool, resultText: string)
      modifies this
      ensures State() == CalculatorEntry.CalculateResult(old(State()), secondIsZero, resultText)
    {
      if firstNumber.None? || currentOperator.None? {
        return;
      }
      if currentOperator.value == "/" && secondIsZero {
        display := "Error";
        return;
      }
      display := resultText;
      firstNumber := None;
      currentOperator := None;
      waitingForSecondNumber := false;
    }

    method ClearEntry()
      modifies this
      ensures State() == CalculatorEntry.ClearEntry(old(State()))
    {
      display := "0";
    }

    method ClearAll()
      modifies this
      ensures State() == CalculatorEntry.ClearAll(old(State()))
    {
      display := "0";
      firstNumber := None;
      currentOperator := None;
      waitingForSecondNumber := false;
    }

    method AddDecimal()
      modifies this
      ensures State() == CalculatorEntry.AddDecimal(old(State()))
    {
      if waitingForSecondNumber || display == "0" {
        display := "0.";
        waitingForSecondNumber := false;
      } else if '.' !in display {
        display := display + ".";
      }
    }

    method DeleteLast()
      modifies this
      ensures State() == CalculatorEntry.DeleteLast(old(State()))
    {
      var currentValue := display;
      if |currentValue| > 0 {
        if |currentValue| == 1 {
          display := "0";
        } else {
          display := currentValue[..|currentValue| - 1];
        }
      }
    }
  }

  /** 1, 2, ".", "5", "+", 3, "=": the operands are entered as text and the result replaces them. */
  method EnterSum()
  {
    var keypad := new Calculator("0");
    keypad.AddNumber("1");
    keypad.AddNumber("2");
    keypad.AddDecimal();
    keypad.AddDecimal();
    keypad.AddNumber("5");
    assert keypad.display == "12.5";
    keypad.SetOperation("+");
    keypad.AddNumber("3");
    assert keypad.State() == CalculatorEntry.CalcState("3", Some("12.5"), Some("+"), false);
    keypad.CalculateResult(false, "15.5");
    assert keypad.State() == CalculatorEntry.CalcState("15.5", None, None, false);
  }
}
