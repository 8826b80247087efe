/** The two-slot product a Star lifts its computation over. */
module Pairs {

  datatype Pair<+A, +B> = Pair(fst: A, snd: B)

  /** Applies `f` to the first slot and `g` to the second. */
  function Bimap<A, B, C, D>(p: Pair<A, B>, f: A -> C, g: B -> D): (r: Pair<C, D>)
    ensures r.fst == f(p.fst) && r.snd == g(p.snd)
  {
    Pair(f(p.fst), g(p.snd))
  }
}
