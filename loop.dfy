/** `LOOP<i>`: counted looping by recursive template instantiation. The
    generic `LOOP<i>::EXEC` prints a pre-marker, runs `LOOP<i-1>::EXEC` and
    prints a post-marker; the specialisation `LOOP<0>::EXEC` prints the
    pre-marker 0, a line break and the post-marker 0. */
module Loop {
  import Decimal

  datatype Option<T> = None | Some(value: T)

  /** What one output statement of `LOOP` writes. */
  datatype Marker = Pre(tag: nat) | Break | Post(tag: nat)

  /** The text of a marker: `std::cout << "A" << i << " "`, `std::cout << "\n"`
      and `std::cout << "B" << i << " "`. */
  function Render(m: Marker): string {
    match m
    case Pre(i) => "A" + Decimal.Digits(i) + " "
    case Break => "\n"
    case Post(i) => "B" + Decimal.Digits(i) + " "
  }

  /** Reads an output token back as a marker. */
  function Read(t: string): Option<Marker> {
    if t == "\n" then Some(Break)
    else if |t| >= 3 && (t[0] == 'A' || t[0] == 'B') && t[|t| - 1] == ' '
            && Decimal.IsDigits(t[1..|t| - 1]) then
      var n := Decimal.Parse(t[1..|t| - 1]);
      Some(if t[0] == 'A' then Pre(n) else Post(n))
    else None
  }

  /** Every marker is read back from its own text. */
  lemma ReadRender(m: Marker)
    ensures Read(Render(m)) == Some(m)
  {
    match m
    case Break =>
    case Pre(i) =>
      var t := Render(m);
      assert t[1..|t| - 1] == Decimal.Digits(i);
      Decimal.ParseDigits(i);
    case Post(i) =>
      var t := Render(m);
      assert t[1..|t| - 1] == Decimal.Digits(i);
      Decimal.ParseDigits(i);
  }

  /** Distinct markers have distinct texts. */
  lemma RenderInjective(m: Marker, n: Marker)
    ensures Render(m) == Render(n) <==> m == n
  {
    ReadRender(m);
    ReadRender(n);
  }

  /** The output of `LOOP<i>::EXEC()`. Template instantiation only ends at the
      specialisation `LOOP<0>`, so a depth must be non-negative. */
  function Exec(i: int): (r: seq<string>)
    requires i >= 0
    ensures |r| == 2 * i + 3
    decreases i
  {
    if i == 0 then [Render(Pre(0)), Render(Break), Render(Post(0))]
    else [Render(Pre(i))] + Exec(i - 1) + [Render(Post(i))]
  }

  /** The marker at position `k` of the depth-`i` output: pre-markers
      i, i-1, ..., 0, the break, then post-markers 0, 1, ..., i. */
  function MarkerAt(i: nat, k: nat): Marker
    requires k < 2 * i + 3
  {
    if k <= i then Pre(i - k) else if k == i + 1 then Break else Post(k - i - 2)
  }

  /** Position by position, the output is the nested-bracket ordering. */
  lemma {:induction false} ExecAt(i: nat, k: nat)
    requires k < 2 * i + 3
    ensures Exec(i)[k] == Render(MarkerAt(i, k))
    decreases i
  {
    if i == 0 {
      ExecZero();
    } else if k == 0 || k == 2 * i + 2 {
      OuterAt(i, k);
    } else {
      ExecAt(i - 1, k - 1);
      StepAt(i, k);
    }
  }

  /** The outermost pair of markers of depth `i`. */
  lemma OuterAt(i: nat, k: nat)
    requires 0 < i && (k == 0 || k == 2 * i + 2)
    ensures Exec(i)[k] == Render(MarkerAt(i, k))
  {
  }

  /** One level of nesting: inside the outer markers of depth `i` sits the
      output of depth `i-1`, shifted by one position. */
  lemma StepAt(i: nat, k: nat)
    requires 0 < i && 0 < k < 2 * i + 2
    requires Exec(i - 1)[k - 1] == Render(MarkerAt(i - 1, k - 1))
    ensures Exec(i)[k] == Render(MarkerAt(i, k))
  {
    var pre, inner, post := [Render(Pre(i))], Exec(i - 1), [Render(Post(i))];
    assert Exec(i) == pre + inner + post;
    assert (pre + inner + post)[k] == inner[k - 1];
    assert MarkerAt(i, k) == MarkerAt(i - 1, k - 1);
  }

  /** Every output token is a marker, and reading it gives `MarkerAt`. */
  lemma ExecReadsAs(i: nat, k: nat)
    requires k < 2 * i + 3
    ensures Read(Exec(i)[k]) == Some(MarkerAt(i, k))
  {
    ExecAt(i, k);
    ReadRender(MarkerAt(i, k));
  }

  /** The output opens with the pre-marker of depth `i`, closes with its
      post-marker and has the line break in the middle. */
  lemma FirstMiddleLast(i: nat)
    ensures Exec(i)[0] == "A" + Decimal.Digits(i) + " "
    ensures Exec(i)[i + 1] == "\n"
    ensures Exec(i)[2 * i + 2] == "B" + Decimal.Digits(i) + " "
  {
    ExecAt(i, 0);
    ExecAt(i, i + 1);
    ExecAt(i, 2 * i + 2);
  }

  /** The depth-0 output is exactly "A0 ", "\n", "B0 ". */
  lemma ExecZero()
    ensures Exec(0) == ["A0 ", "\n", "B0 "]
  {
    assert Decimal.DigitChar(0) == '0';
    assert Decimal.Digits(0) == "0";
    assert Render(Pre(0)) == "A0 " && Render(Post(0)) == "B0 ";
  }

  /** There is exactly one line break, in the middle of the output. */
  lemma {:induction false} SingleBreak(i: nat, k: nat)
    requires k < 2 * i + 3
    ensures Exec(i)[k] == "\n" <==> k == i + 1
  {
    ExecAt(i, k);
    RenderInjective(MarkerAt(i, k), Break);
  }

  /** Before the break the pre-markers' tags strictly decrease. */
  lemma PreMarkersDecrease(i: nat, j: nat, k: nat)
    requires j < k <= i
    ensures Read(Exec(i)[j]).Some? && Read(Exec(i)[j]).value.Pre?
    ensures Read(Exec(i)[k]).Some? && Read(Exec(i)[k]).value.Pre?
    ensures Read(Exec(i)[j]).value.tag > Read(Exec(i)[k]).value.tag
  {
    ExecReadsAs(i, j);
    ExecReadsAs(i, k);
  }

  /** After the break the post-markers' tags strictly increase. */
  lemma PostMarkersIncrease(i: nat, j: nat, k: nat)
    requires i + 1 < j < k < 2 * i + 3
    ensures Read(Exec(i)[j]).Some? && Read(Exec(i)[j]).value.Post?
    ensures Read(Exec(i)[k]).Some? && Read(Exec(i)[k]).value.Post?
    ensures Read(Exec(i)[j]).value.tag < Read(Exec(i)[k]).value.tag
  {
    ExecReadsAs(i, j);
    ExecReadsAs(i, k);
  }

  /** The output is symmetric around the break: the token `d` places after
      the break is the post-marker with the tag of the pre-marker `d` places
      before it. */
  lemma {:induction false} Mirror(i: nat, d: nat)
    requires 1 <= d <= i + 1
    ensures Exec(i)[i + 1 - d] == Render(Pre(d - 1))
    ensures Exec(i)[i + 1 + d] == Render(Post(d - 1))
  {
    assert MarkerAt(i, i + 1 - d) == Pre(d - 1);
    assert MarkerAt(i, i + 1 + d) == Post(d - 1);
    ExecAt(i, i + 1 - d);
    ExecAt(i, i + 1 + d);
  }

  /** The keys of the templates the compiler instantiates for `LOOP<i>`,
      outermost first, within a nesting budget of `fuel` levels: `LOOP<0>` is
      the specialisation and instantiates nothing further; any other key
      instantiates `LOOP<i-1>`. */
  function Instantiations(i: int, fuel: nat): (r: seq<int>)
    ensures |r| <= fuel
    decreases fuel
  {
    if fuel == 0 then []
    else if i == 0 then [0]
    else [i] + Instantiations(i - 1, fuel - 1)
  }

  /** From a non-negative depth the chain is i, i-1, ..., 0: it ends at the
      specialisation after exactly i+1 levels, whatever budget remains. */
  lemma {:induction false} NonNegativeReachesBase(i: int, fuel: nat)
    requires 0 <= i < fuel
    ensures |Instantiations(i, fuel)| == i + 1
    ensures forall k :: 0 <= k <= i ==> Instantiations(i, fuel)[k] == i - k
    decreases i
  {
    if i > 0 {
      NonNegativeReachesBase(i - 1, fuel - 1);
    }
  }

  /** From a negative depth the chain uses up every level of any budget and
      never reaches `LOOP<0>`: instantiation does not terminate. */
  lemma {:induction false} NegativeNeverReachesBase(i: int, fuel: nat)
    requires i < 0
    ensures |Instantiations(i, fuel)| == fuel
    ensures forall k :: 0 <= k < fuel ==> Instantiations(i, fuel)[k] == i - k < 0
    decreases fuel
  {
    if fuel > 0 {
      NegativeNeverReachesBase(i - 1, fuel - 1);
    }
  }
}
