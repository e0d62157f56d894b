/** `IF_ELSE<Condition, THEN, ELSE>`: selection of one of two alternatives by
    a bool key. Its nested `selector<C>` names THEN generically and is
    specialised for `false` to name ELSE; `RESULT` is `selector<Condition>`'s
    choice. C++ selects a type; here the alternatives are values of any type. */
module Language {
  import Resolution

  /** `IF_ELSE<c, t, e>::RESULT`. */
  function IfElse<T>(c: bool, t: T, e: T): (r: T)
    ensures c ==> r == t
    ensures !c ==> r == e
  {
    Resolution.Resolve(map[false := e], t, c)
  }

  /** The result is always one of the two alternatives. */
  lemma OneOfTwo<T>(c: bool, t: T, e: T)
    ensures IfElse(c, t, e) == t || IfElse(c, t, e) == e
  {
  }

  /** Identical alternatives make the condition irrelevant. */
  lemma SameAlternatives<T>(c: bool, t: T)
    ensures IfElse(c, t, t) == t
  {
  }

  /** Which alternative is chosen depends on the condition alone, not on what
      the alternatives are: for any two pairs of distinct alternatives, of
      possibly unrelated types, the same position is chosen. */
  lemma ChoiceDependsOnlyOnCondition<T, U>(c: bool, t: T, e: T, t': U, e': U)
    requires t != e && t' != e'
    ensures (IfElse(c, t, e) == t) == (IfElse(c, t', e') == t')
  {
  }
}
