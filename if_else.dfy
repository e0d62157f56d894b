/** `IF<Condition>`: two-way branching on a bool key. The generic
    `IF<Condition>::EXEC` prints the true-statement line; the explicit
    specialisation `IF<false>` prints the false-statement line. */
module Conditional {
  import Output
  import Resolution

  const TrueMessage: string := "Statement is true"
  const FalseMessage: string := "Statement is false"

  /** The only explicit specialisation is for `false`. */
  const Specialisations: map<bool, string> := map[false := FalseMessage]

  /** The output of `IF<c>::EXEC()`: one line. */
  function Exec(c: bool): (r: seq<string>)
    ensures r == [Output.Line(Resolution.Resolve(Specialisations, TrueMessage, c))]
    ensures |r| == 1 && Output.IsLine(r[0])
  {
    match c
    case false => [Output.Line(FalseMessage)]
    case _ => [Output.Line(TrueMessage)]
  }

  /** `true` prints the true line and `false` the false line, and neither key
      prints the other key's line. */
  lemma ExecCases(c: bool)
    ensures Exec(c) == [Output.Line(TrueMessage)] <==> c
    ensures Exec(c) == [Output.Line(FalseMessage)] <==> !c
    ensures Output.Line(if c then FalseMessage else TrueMessage) !in Exec(c)
  {
    assert Output.Line(TrueMessage)[13] == 't';
    assert Output.Line(FalseMessage)[13] == 'f';
  }
}
