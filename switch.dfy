/** `SWITCH<_case>`: multi-way branching on an int key. The generic
    `SWITCH<_case>::EXEC` prints the default line; the explicit
    specialisations `SWITCH<1>` and `SWITCH<2>` print their own lines. */
module Switch {
  import Output
  import Resolution

  const DefaultMessage: string := " SWITCH - default "
  const CaseOneMessage: string := " SWITCH - 1 "
  const CaseTwoMessage: string := " SWITCH - 2 "

  /** The explicit specialisations, by key. */
  const Specialisations: map<int, string> := map[1 := CaseOneMessage, 2 := CaseTwoMessage]

  /** The output of `SWITCH<key>::EXEC()`: one line, for every int key. */
  function Exec(key: int): (r: seq<string>)
    ensures r == [Output.Line(Resolution.Resolve(Specialisations, DefaultMessage, key))]
    ensures |r| == 1 && Output.IsLine(r[0])
  {
    match key
    case 1 => [Output.Line(CaseOneMessage)]
    case 2 => [Output.Line(CaseTwoMessage)]
    case _ => [Output.Line(DefaultMessage)]
  }

  /** Key 1 prints the case-1 line, key 2 the case-2 line, and every other key
      (zero and negative keys included) the default line; each only then. */
  lemma ExecCases(key: int)
    ensures Exec(key) == [Output.Line(CaseOneMessage)] <==> key == 1
    ensures Exec(key) == [Output.Line(CaseTwoMessage)] <==> key == 2
    ensures Exec(key) == [Output.Line(DefaultMessage)] <==> key != 1 && key != 2
  {
    MessagesDistinct();
  }

  /** The three lines are pairwise distinct. */
  lemma MessagesDistinct()
    ensures Output.Line(CaseOneMessage) != Output.Line(CaseTwoMessage)
    ensures Output.Line(CaseOneMessage) != Output.Line(DefaultMessage)
    ensures Output.Line(CaseTwoMessage) != Output.Line(DefaultMessage)
  {
    assert Output.Line(CaseOneMessage)[10] == '1';
    assert Output.Line(CaseTwoMessage)[10] == '2';
    assert Output.Line(DefaultMessage)[10] == 'd';
  }
}
