/** How the programs' standard output is represented: one string per output
    statement, in the order the statements run. `std::endl` (and a literal
    "\n") contributes a '\n' character to the statement it belongs to; stream
    flushing is not represented. */
module Output {

  /** The text of `std::cout << s << std::endl`. */
  function Line(s: string): string {
    s + "\n"
  }

  /** A token that is exactly one complete line: it ends with a line break
      and has no other line break. */
  predicate IsLine(t: string) {
    |t| >= 1 && t[|t| - 1] == '\n' && forall k :: 0 <= k < |t| - 1 ==> t[k] != '\n'
  }

  /** Regrouping the output of `main`'s consecutive statements around the
      loop segment `e`. */
  lemma Regroup<T>(f: T, l: T, e: seq<T>, n: T, xs: seq<T>, ys: seq<T>, zs: seq<T>)
    ensures [f] + ([l] + e + [n]) + xs + ys + zs == [f, l] + e + [n] + xs + ys + zs
  {
  }
}
