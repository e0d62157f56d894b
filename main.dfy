/** The driver: the two variants handed to `IF_ELSE` and the fixed sequence of
    calls made by `main`. Two facts the driver depends on are parameters:
    whether `sizeof(int) == 4` on the platform, and the value of
    `FACTOR<5>::RESULT`, whose definition is not part of this model. */
module Program {
  import Decimal
  import Output
  import Loop
  import Conditional
  import Switch
  import Language

  /** The depth of the loop example, `LOOP<8>`. */
  const LoopDepth: nat := 8

  /** The structs `THEN` and `ELSE`, each exposing a static `func`. */
  datatype Variant = Then | Else

  /** What a call of `func` prints and what it returns. */
  datatype Call = Call(output: seq<string>, value: int)

  /** `THEN::func` prints "Inside THEN" and returns 42; `ELSE::func` prints
      "Inside ELSE" and returns 0. Neither ends its line. */
  function Func(v: Variant): (c: Call)
    ensures c.output == [if v == Then then "Inside THEN" else "Inside ELSE"]
    ensures '\n' !in c.output[0]
    ensures c.value == 42 <==> v == Then
    ensures c.value == 0 <==> v == Else
  {
    match v
    case Then => Call(["Inside THEN"], 42)
    case Else => Call(["Inside ELSE"], 0)
  }

  /** `IF_ELSE< 4 == sizeof(int), THEN, ELSE >::RESULT::func()`. */
  function SelectedCall(intIs4Bytes: bool): (c: Call)
    ensures c.value == 42 <==> intIs4Bytes
    ensures c.value == 0 <==> !intIs4Bytes
    ensures c.output == (if intIs4Bytes then ["Inside THEN"] else ["Inside ELSE"])
  {
    Func(Language.IfElse(intIs4Bytes, Then, Else))
  }

  /** The statements of `main`, one output segment each. */
  function FactorialSegment(f5: int): seq<string> {
    ["Factorial of 5 is: " + Decimal.IntString(f5) + ".\n\n"]
  }

  function LoopSegment(): seq<string> {
    [Output.Line("Loop example:")] + Loop.Exec(LoopDepth) + ["\n\n"]
  }

  function IfSegment(): seq<string> {
    [Output.Line("If Else example")] + (Conditional.Exec(false) + Conditional.Exec(true))
  }

  function SwitchSegment(): seq<string> {
    [Output.Line("Switch case example")]
      + (Switch.Exec(1) + Switch.Exec(2) + Switch.Exec(0) + Switch.Exec(10))
  }

  function SelectSegment(intIs4Bytes: bool): seq<string> {
    var c := SelectedCall(intIs4Bytes);
    c.output + [" - returning: " + Decimal.IntString(c.value)]
  }

  /** Everything `main` prints, in order. */
  function Run(intIs4Bytes: bool, f5: int): (out: seq<string>)
    ensures |out| == 32
  {
    FactorialSegment(f5) + LoopSegment() + IfSegment() + SwitchSegment()
      + SelectSegment(intIs4Bytes)
  }

  /** Everything `main` prints, written out token by token. */
  lemma WholeOutput(intIs4Bytes: bool, f5: int)
    ensures Run(intIs4Bytes, f5)
         == ["Factorial of 5 is: " + Decimal.IntString(f5) + ".\n\n", "Loop example:\n"]
            + Loop.Exec(LoopDepth) + ["\n\n"]
            + ["If Else example\n", "Statement is false\n", "Statement is true\n"]
            + ["Switch case example\n", " SWITCH - 1 \n", " SWITCH - 2 \n",
               " SWITCH - default \n", " SWITCH - default \n"]
            + [if intIs4Bytes then "Inside THEN" else "Inside ELSE",
               " - returning: " + (if intIs4Bytes then "42" else "0")]
  {
    IfText();
    SwitchText();
    SelectText(intIs4Bytes);
    assert "Loop example:\n" == Output.Line("Loop example:");
    Output.Regroup("Factorial of 5 is: " + Decimal.IntString(f5) + ".\n\n", "Loop example:\n",
                   Loop.Exec(LoopDepth), "\n\n", IfSegment(), SwitchSegment(),
                   SelectSegment(intIs4Bytes));
  }

  /** The text of the IF example's statements. */
  lemma IfText()
    ensures IfSegment() == ["If Else example\n", "Statement is false\n", "Statement is true\n"]
  {
    assert Output.Line("If Else example") == "If Else example\n";
    assert Output.Line(Conditional.FalseMessage) == "Statement is false\n";
    assert Output.Line(Conditional.TrueMessage) == "Statement is true\n";
    assert Conditional.Exec(false) == ["Statement is false\n"];
    assert Conditional.Exec(true) == ["Statement is true\n"];
  }

  /** The text of the SWITCH example's statements. */
  lemma SwitchText()
    ensures SwitchSegment()
         == ["Switch case example\n", " SWITCH - 1 \n", " SWITCH - 2 \n",
             " SWITCH - default \n", " SWITCH - default \n"]
  {
    assert Output.Line("Switch case example") == "Switch case example\n";
    assert Output.Line(Switch.CaseOneMessage) == " SWITCH - 1 \n";
    assert Output.Line(Switch.CaseTwoMessage) == " SWITCH - 2 \n";
    assert Output.Line(Switch.DefaultMessage) == " SWITCH - default \n";
    assert Switch.Exec(1) == [" SWITCH - 1 \n"];
    assert Switch.Exec(2) == [" SWITCH - 2 \n"];
    assert Switch.Exec(0) == [" SWITCH - default \n"];
    assert Switch.Exec(10) == [" SWITCH - default \n"];
  }

  /** The text of the selection example's statements. */
  lemma SelectText(intIs4Bytes: bool)
    ensures SelectSegment(intIs4Bytes)
         == [if intIs4Bytes then "Inside THEN" else "Inside ELSE",
             " - returning: " + (if intIs4Bytes then "42" else "0")]
  {
    assert Decimal.Digits(42) == "42" by {
      assert Decimal.Digits(4) == "4";
    }
    assert Decimal.Digits(0) == "0";
  }

  /** The loop example prints the depth-8 trace. */
  lemma LoopExample(intIs4Bytes: bool, f5: int)
    ensures Run(intIs4Bytes, f5)[2..21] == Loop.Exec(LoopDepth)
  {
  }

  /** The depth-8 trace has 19 tokens, runs from "A8 " to "B8 " and has the
      line break in the middle. */
  lemma DepthEight()
    ensures |Loop.Exec(LoopDepth)| == 19
    ensures Loop.Exec(LoopDepth)[0] == "A8 " && Loop.Exec(LoopDepth)[9] == "\n"
    ensures Loop.Exec(LoopDepth)[18] == "B8 "
  {
    Loop.FirstMiddleLast(LoopDepth);
    assert Decimal.Digits(8) == "8";
  }

  /** The IF calls print the false line and then the true line. */
  lemma IfExample(intIs4Bytes: bool, f5: int)
    ensures Run(intIs4Bytes, f5)[23..25]
         == [Output.Line(Conditional.FalseMessage), Output.Line(Conditional.TrueMessage)]
  {
  }

  /** The SWITCH calls with keys 1, 2, 0, 10 print case 1, case 2, default,
      default. */
  lemma SwitchExample(intIs4Bytes: bool, f5: int)
    ensures Run(intIs4Bytes, f5)[26..30]
         == [Output.Line(Switch.CaseOneMessage), Output.Line(Switch.CaseTwoMessage),
             Output.Line(Switch.DefaultMessage), Output.Line(Switch.DefaultMessage)]
  {
  }

  /** The selected variant's `func` runs last: THEN's, returning 42, exactly
      when an int is 4 bytes wide, ELSE's, returning 0, otherwise. */
  lemma SelectionExample(intIs4Bytes: bool, f5: int)
    ensures Run(intIs4Bytes, f5)[30] == (if intIs4Bytes then "Inside THEN" else "Inside ELSE")
    ensures Run(intIs4Bytes, f5)[31] == " - returning: " + (if intIs4Bytes then "42" else "0")
  {
    assert Run(intIs4Bytes, f5)[30..] == SelectSegment(intIs4Bytes);
    assert Decimal.Digits(42) == "42" by {
      assert Decimal.Digits(4) == "4";
    }
    assert Decimal.Digits(0) == "0";
  }
}
