/** The two shared generators of the chess-move demo: a straight run of one
    direction label, and a diagonal run that emits a vertical label followed by
    a horizontal label per square. Printing a label is modelled as appending it
    to the output sequence, so each generator is the sequence it prints. */
module Directions {

  /** A direction label such as "Cima" (up) or "Direita" (right). */
  type Label = string

  /** The step count a generator actually uses: a count of zero or less emits nothing. */
  function Max0(n: int): nat
  {
    if n <= 0 then 0 else n
  }

  /** `s` is exactly `n` copies of `d` (nothing when `n <= 0`). */
  ghost predicate IsStraight(s: seq<Label>, d: Label, n: int)
  {
    |s| == Max0(n) &&
    forall i :: 0 <= i < |s| ==> s[i] == d
  }

  /** `s` holds `n` diagonal squares: `v` at every even index, `h` at every odd one. */
  ghost predicate IsDiagonal(s: seq<Label>, v: Label, h: Label, n: int)
  {
    |s| == 2 * Max0(n) &&
    forall i :: 0 <= i < |s| ==> s[i] == (if i % 2 == 0 then v else h)
  }

  /** imprimeDirecaoRec: print `d`, then recurse with one step fewer. */
  function DirectionRun(d: Label, passos: int): (r: seq<Label>)
    ensures IsStraight(r, d, passos)
    ensures passos <= 0 ==> r == []
    decreases passos
  {
    if passos <= 0 then [] else [d] + DirectionRun(d, passos - 1)
  }

  /** moveDiagonalRec: print the vertical label, then the horizontal one, then recurse. */
  function DiagonalRun(v: Label, h: Label, passos: int): (r: seq<Label>)
    ensures IsDiagonal(r, v, h, passos)
    ensures passos <= 0 ==> r == []
    decreases passos
  {
    if passos <= 0 then [] else [v, h] + DiagonalRun(v, h, passos - 1)
  }

  /** The characterisation fixes the straight run: any sequence meeting it is that run. */
  lemma StraightUnique(s: seq<Label>, d: Label, n: int)
    requires IsStraight(s, d, n)
    ensures s == DirectionRun(d, n)
  {
  }

  /** The characterisation fixes the diagonal run: any sequence meeting it is that run. */
  lemma DiagonalUnique(s: seq<Label>, v: Label, h: Label, n: int)
    requires IsDiagonal(s, v, h, n)
    ensures s == DiagonalRun(v, h, n)
  {
  }

  /** One more diagonal square appends one vertical and one horizontal label at the end. */
  lemma {:induction false} DiagonalSnoc(v: Label, h: Label, n: nat)
    ensures DiagonalRun(v, h, n + 1) == DiagonalRun(v, h, n) + [v, h]
    decreases n
  {
    if n > 0 {
      DiagonalSnoc(v, h, n - 1);
      calc {
        DiagonalRun(v, h, n + 1);
        [v, h] + DiagonalRun(v, h, n);
        [v, h] + (DiagonalRun(v, h, n - 1) + [v, h]);
        ([v, h] + DiagonalRun(v, h, n - 1)) + [v, h];
        DiagonalRun(v, h, n) + [v, h];
      }
    }
  }

  /** Pairs up two equally long runs element by element: a[0], b[0], a[1], b[1], ... */
  function Interleave(a: seq<Label>, b: seq<Label>): (r: seq<Label>)
    requires |a| == |b|
    ensures |r| == 2 * |a|
    decreases |a|
  {
    if |a| == 0 then [] else [a[0], b[0]] + Interleave(a[1..], b[1..])
  }

  /** A diagonal square is one vertical step plus one horizontal step: the diagonal run
      is the vertical straight run interleaved with the horizontal straight run. */
  lemma {:induction false} DiagonalIsInterleaving(v: Label, h: Label, n: int)
    ensures DiagonalRun(v, h, n) == Interleave(DirectionRun(v, n), DirectionRun(h, n))
    decreases Max0(n)
  {
    if n > 0 {
      DiagonalIsInterleaving(v, h, n - 1);
      var a, b := DirectionRun(v, n), DirectionRun(h, n);
      assert a[1..] == DirectionRun(v, n - 1);
      assert b[1..] == DirectionRun(h, n - 1);
    }
  }
}
