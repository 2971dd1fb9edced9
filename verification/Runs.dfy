/** Runs of a machine that is given by its partial step function. */
module Runs {
  import opened Prelude

  predicate Legal<S, A>(next: (S, A) -> Option<S>, s: S, actions: seq<A>)
    decreases |actions|
  {
    |actions| == 0 || (next(s, actions[0]).Some? && Legal(next, next(s, actions[0]).value, actions[1..]))
  }

  function Run<S, A>(next: (S, A) -> Option<S>, s: S, actions: seq<A>): S
    requires Legal(next, s, actions)
    decreases |actions|
  {
    if |actions| == 0 then s else Run(next, next(s, actions[0]).value, actions[1..])
  }

  lemma RunOne<S, A>(next: (S, A) -> Option<S>, s: S, a: A)
    requires next(s, a).Some?
    ensures Legal(next, s, [a]) && Run(next, s, [a]) == next(s, a).value
  {
    assert [a][1..] == [];
    assert Run(next, next(s, a).value, []) == next(s, a).value;
  }

  lemma RunFrom<S, A>(next: (S, A) -> Option<S>, s: S, a: A, rest: seq<A>)
    requires next(s, a).Some?
    ensures Legal(next, s, [a] + rest) <==> Legal(next, next(s, a).value, rest)
    ensures Legal(next, s, [a] + rest) ==> Run(next, s, [a] + rest) == Run(next, next(s, a).value, rest)
  {
    assert ([a] + rest)[0] == a && ([a] + rest)[1..] == rest;
  }

  lemma {:induction false} RunInTwo<S, A>(next: (S, A) -> Option<S>, s: S, first: seq<A>, second: seq<A>)
    ensures Legal(next, s, first + second) <==> Legal(next, s, first) && Legal(next, Run(next, s, first), second)
    ensures Legal(next, s, first + second) ==> Run(next, s, first + second) == Run(next, Run(next, s, first), second)
    decreases |first|
  {
    if |first| == 0 {
      assert first + second == second;
    } else {
      assert (first + second)[0] == first[0] && (first + second)[1..] == first[1..] + second;
      if next(s, first[0]).Some? {
        RunInTwo(next, next(s, first[0]).value, first[1..], second);
      }
    }
  }
}
