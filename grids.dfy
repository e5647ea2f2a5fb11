/** Dense two-dimensional numpy arrays that are built once and then only read,
    modelled as sequences of rows: g[a][b] is numpy's g[a, b]. */
module Grids {

  type Grid = seq<seq<real>>

  /** g has shape n x n. */
  predicate IsSquare(g: Grid, n: nat) {
    |g| == n && forall a :: 0 <= a < n ==> |g[a]| == n
  }

  /** numpy's `g.T`. */
  function Transpose(g: Grid, n: nat): (t: Grid)
    requires IsSquare(g, n)
    ensures IsSquare(t, n)
    ensures forall a, b :: 0 <= a < n && 0 <= b < n ==> t[a][b] == g[b][a]
  {
    seq(n, a requires 0 <= a < n => seq(n, b requires 0 <= b < n => g[b][a]))
  }

  /** The n x n grid whose entry [a][b] is f(a, b). */
  function Tabulate(n: nat, f: (nat, nat) -> real): (g: Grid)
    ensures IsSquare(g, n)
    ensures forall a, b :: 0 <= a < n && 0 <= b < n ==> g[a][b] == f(a, b)
  {
    seq(n, a requires 0 <= a < n => seq(n, b requires 0 <= b < n => f(a, b)))
  }

  /** Transposing twice gives the grid back. */
  lemma {:induction false} TransposeTwice(g: Grid, n: nat)
    requires IsSquare(g, n)
    ensures Transpose(Transpose(g, n), n) == g
  {
    var t := Transpose(Transpose(g, n), n);
    forall a | 0 <= a < n
      ensures t[a] == g[a]
    {
      assert |t[a]| == |g[a]| == n;
      forall b | 0 <= b < n ensures t[a][b] == g[a][b] { }
    }
  }

  /** Multiplying by a non-negative factor keeps order: the step behind the index
      bounds of cells, rows and pixels. */
  lemma MulLe(a: int, b: int, c: int)
    requires a <= b && c >= 0
    ensures a * c <= b * c
  {
    assert b * c - a * c == (b - a) * c;
  }
}
