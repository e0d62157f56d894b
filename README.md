# Compile-time control flow, modelled in Dafny

This project models the template-metaprogramming sample of `cpp_topics`. The
sample builds control flow out of class templates keyed by a compile-time
constant. Each construct has a generic definition plus explicit
specialisations for single key values, and the compiler picks the behaviour:

- `LOOP<i>` (loop.h): counted looping by recursive instantiation. Level `i`
  prints `A<i> `, runs level `i-1`, then prints `B<i> `. The specialisation
  `LOOP<0>` prints `A0 `, a line break and `B0 `.
- `SWITCH<k>` (switch.h): a default line for every int key, with
  specialisations for keys 1 and 2.
- `IF<b>` (if_else.h): the true-statement line in general, with a
  specialisation for `false`.
- `IF_ELSE<C, THEN, ELSE>` (language.h): selects THEN or ELSE through a
  nested `selector` that is specialised for `false`.
- `main` (main.cpp): calls each construct with fixed keys, then calls `func`
  on the variant `IF_ELSE` selects.

Model conventions:

- Standard output is a `seq<string>` with one element per output statement,
  in the order the statements run. `std::endl` and the literal `"\n"` add a
  `'\n'` to the statement they belong to. So `LOOP<0>` prints
  `["A0 ", "\n", "B0 "]` and `SWITCH<1>` prints `[" SWITCH - 1 \n"]`.
- One "specific binding over generic" rule is written once, as
  `Resolution.Resolve`. `Switch.Exec` and `Conditional.Exec` are proved to
  agree with it. `Language.IfElse` is defined by it. `Loop.Exec` is not tied
  to it: the base case `LOOP<0>` is a plain `i == 0` guard.
- `Loop.Render` gives the text of each loop marker. `Loop.Read` parses that
  text back. The ordering properties are stated on the tags read back.
- Integers are printed as `operator<<` prints an int (`Decimal`).
- Compile-time non-termination for a negative depth is modelled by
  `Loop.Instantiations`. It lists the chain of templates the compiler
  instantiates within a nesting budget.
- `main.cpp` depends on two facts outside the model. Whether an int is 4
  bytes is the bool parameter `intIs4Bytes`. The value of `FACTOR<5>::RESULT`
  is the int parameter `f5`.

## Model

| member | source | states |
|---|---|---|
| Decimal.Digits | samples/template_meta_programming/loop.h:9 | the printed form of a loop level is at least one decimal digit; 0 prints as exactly "0", and a longer form never starts with '0' |
| Decimal.ParseDigits | samples/template_meta_programming/loop.h:9 | reading the printed digits back gives the number (round trip) |
| Decimal.DigitsInjective | samples/template_meta_programming/loop.h:9-11 | two levels are printed the same iff they are equal |
| Decimal.IntString | samples/template_meta_programming/main.cpp:53 | a printed int starts with '-' iff it is negative; otherwise it is the digits of its magnitude |
| Decimal.IntStringInjective | samples/template_meta_programming/main.cpp:53 | two ints are printed the same iff they are equal |
| Resolution.ShadowsOnlyItsKey | samples/template_meta_programming/switch.h:11-25 | a specialisation for key k changes what k resolves to and changes no other key |
| Loop.ReadRender | samples/template_meta_programming/loop.h:9-21 | every loop marker (pre i, break, post i) is parsed back from its printed text |
| Loop.RenderInjective | samples/template_meta_programming/loop.h:9-21 | two markers have the same text iff they are the same marker |
| Loop.Exec | samples/template_meta_programming/loop.h:3-23 | depth i >= 0 prints exactly 2*i+3 tokens; a negative depth is excluded |
| Loop.ExecAt | samples/template_meta_programming/loop.h:7-23 | position k holds pre(i-k) for k <= i, the break at i+1, and post(k-i-2) after it |
| Loop.ExecReadsAs | samples/template_meta_programming/loop.h:7-23 | every printed token reads back as the marker that belongs at its position |
| Loop.FirstMiddleLast | samples/template_meta_programming/loop.h:9-11 | the first token is "A"+i+" ", the middle one is the break, the last is "B"+i+" " |
| Loop.ExecZero | samples/template_meta_programming/loop.h:15-23 | depth 0 prints exactly "A0 ", "\n", "B0 " |
| Loop.SingleBreak | samples/template_meta_programming/loop.h:20 | a token is the line break iff it is at index i+1, so there is exactly one break |
| Loop.PreMarkersDecrease | samples/template_meta_programming/loop.h:9-10 | every token before the break is a pre-marker, and their tags strictly decrease |
| Loop.PostMarkersIncrease | samples/template_meta_programming/loop.h:10-11 | every token after the break is a post-marker, and their tags strictly increase |
| Loop.Mirror | samples/template_meta_programming/loop.h:7-23 | d places before the break is pre(d-1) and d places after it is post(d-1), so the output is symmetric |
| Loop.Instantiations | samples/template_meta_programming/loop.h:10-16 | instantiation never uses more levels than the budget allows |
| Loop.NonNegativeReachesBase | samples/template_meta_programming/loop.h:10-16 | from depth i >= 0 the compiler instantiates exactly i, i-1, ..., 0 (i+1 levels) and stops at `LOOP<0>` |
| Loop.NegativeNeverReachesBase | samples/template_meta_programming/loop.h:10-16 | from a negative depth every level of any budget is used and no key is 0, so instantiation never terminates |
| Switch.Exec | samples/template_meta_programming/switch.h:3-25 | every int key prints exactly one line, namely the specialisation's message or else the default |
| Switch.ExecCases | samples/template_meta_programming/switch.h:3-25 | key 1 prints the case-1 line iff k = 1, key 2 prints the case-2 line iff k = 2, and the default line is printed iff k is neither (0, 10 and negative keys included) |
| Switch.MessagesDistinct | samples/template_meta_programming/switch.h:7-23 | the three lines are pairwise distinct |
| Conditional.Exec | samples/template_meta_programming/if_else.h:3-22 | each key prints one line, resolved as a SWITCH is: a specific binding for false, the generic behaviour otherwise |
| Conditional.ExecCases | samples/template_meta_programming/if_else.h:3-22 | true prints the true line iff the key is true, false prints the false line iff the key is false, and neither prints the other's line |
| Language.IfElse | samples/template_meta_programming/language.h:3-19 | the result is THEN when the condition holds and ELSE otherwise |
| Language.OneOfTwo | samples/template_meta_programming/language.h:18 | the result is always one of the two alternatives |
| Language.SameAlternatives | samples/template_meta_programming/language.h:3-19 | with identical alternatives the result is that alternative whatever the condition |
| Language.ChoiceDependsOnlyOnCondition | samples/template_meta_programming/language.h:3-18 | two pairs of alternatives, even of unrelated types, get the same position chosen |
| Program.Func | samples/template_meta_programming/main.cpp:12-28 | THEN's `func` prints exactly "Inside THEN" and ELSE's exactly "Inside ELSE", with no line break; the result is 42 iff the variant is THEN and 0 iff it is ELSE |
| Program.SelectedCall | samples/template_meta_programming/main.cpp:52 | `result` is 42 iff an int is 4 bytes and 0 otherwise; the printed text is "Inside THEN" or "Inside ELSE" to match |
| Program.Run | samples/template_meta_programming/main.cpp:30-56 | main prints 32 tokens |
| Program.WholeOutput | samples/template_meta_programming/main.cpp:33-53 | main's whole output, token by token: the factorial line with `f5`, "Loop example:", the `LOOP<8>` trace, the blank line, the IF header and lines, the SWITCH header and lines, then the selected `func`'s text and the returned value |
| Program.LoopExample | samples/template_meta_programming/main.cpp:37-39 | tokens 2 to 20 of main's output are exactly the `LOOP<8>` trace |
| Program.DepthEight | samples/template_meta_programming/main.cpp:38 | the `LOOP<8>` trace has 19 tokens, starts with "A8 ", has the break at index 9 and ends with "B8 " |
| Program.IfExample | samples/template_meta_programming/main.cpp:41-43 | the IF calls print the false line and then the true line |
| Program.SwitchExample | samples/template_meta_programming/main.cpp:45-49 | SWITCH with keys 1, 2, 0, 10 prints case 1, case 2, default, default, in that order |
| Program.SelectionExample | samples/template_meta_programming/main.cpp:52-53 | the last two tokens are the selected `func`'s text and " - returning: " followed by 42 or 0, depending on the platform fact |

## Left out

- `FACTOR<n>` (factorial.h) is not part of this model. Its use in main.cpp (lines 33-34) is modelled with `f5` as a parameter, and `Program.Run` prints whatever it is given.
- The real value of `sizeof(int)` depends on the platform. It is the parameter `intIs4Bytes`.
- Stream mechanics are not modelled: flushing by `std::endl`, buffering, and how the text of separate statements is joined.
- The exit status 0 of `main` is not modelled.
- Loop.Exec: accepts every depth `i >= 0`. A C++ compiler accepts only depths that fit in a 32-bit `int`, and it caps nested template instantiation (typically at around 900 to 1024 levels), so `LOOP<i>` fails to compile for large `i`. `Loop.Instantiations` models the nesting budget as `fuel`, but `Exec` is not restricted by it.
- Switch.Exec: accepts every mathematical integer as a key. `SWITCH<k>` can only be instantiated with keys that fit in a 32-bit `int`. Within that range the behaviour is the same.
- Language.IfElse: C++ selects between two types that need not be related. The model selects between two values of one type parameter `T`, which carries no constraint. `Language.ChoiceDependsOnlyOnCondition` shows that the choice does not depend on the alternatives, even across unrelated types.
- The C++ toolchain matters in language.h are not modelled: the explicit specialisation inside class scope and the missing `typename`.
- Idempotence (resolving a construct twice gives the same behaviour) holds by construction, because every operation is a function. No lemma states it.
- The other demonstrations of the repository are not modelled: dynamic dispatch, `delete this`, functors, `std::bind`, list initialisation, defaulted and deleted members, and pimpl. Each is an independent fixed-output example with no shared logic.
