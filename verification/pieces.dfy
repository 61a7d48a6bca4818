/** The piece movers of the demo: rook, bishop (recursive and nested-loop),
    queen (straight and diagonal) and knight. Each returns the labels it prints,
    in order. */
module Pieces {
  import opened Directions

  /** The knight's fixed labels: up and right. */
  const Cima: Label := "Cima"
  const Direita: Label := "Direita"

  /** One knight "L": two squares up, then one to the right. */
  const LShape: seq<Label> := [Cima, Cima, Direita]

  /** The step counts the demo is configured with. */
  const PassosTorre: int := 3
  const PassosBispo: int := 4
  const PassosRainhaReta: int := 2
  const PassosRainhaDiag: int := 3
  const MovimentosCavalo: int := 3

  /** moverTorreRecursivo: the rook walks `passos` squares towards `direcao`. */
  function RookRecursive(passos: int, direcao: Label): (r: seq<Label>)
    ensures IsStraight(r, direcao, passos)
  {
    DirectionRun(direcao, passos)
  }

  /** moverBispoRecursivo: the bishop walks `passos` diagonal squares. */
  function BishopRecursive(passos: int, dirVertical: Label, dirHorizontal: Label): (r: seq<Label>)
    ensures IsDiagonal(r, dirVertical, dirHorizontal, passos)
  {
    DiagonalRun(dirVertical, dirHorizontal, passos)
  }

  /** moverRainhaRetaRecursivo: the queen's straight move reuses the rook's generator. */
  function QueenStraightRecursive(passos: int, direcao: Label): (r: seq<Label>)
    ensures IsStraight(r, direcao, passos)
  {
    DirectionRun(direcao, passos)
  }

  /** moverRainhaDiagonalRecursivo: the queen's diagonal move reuses the bishop's generator. */
  function QueenDiagonalRecursive(passos: int, dirVertical: Label, dirHorizontal: Label): (r: seq<Label>)
    ensures IsDiagonal(r, dirVertical, dirHorizontal, passos)
  {
    DiagonalRun(dirVertical, dirHorizontal, passos)
  }

  /** The wrappers only reorder their arguments before calling the shared generators. */
  lemma WrappersAddNothing(passos: int, d: Label, v: Label, h: Label)
    ensures RookRecursive(passos, d) == DirectionRun(d, passos)
    ensures QueenStraightRecursive(passos, d) == DirectionRun(d, passos)
    ensures BishopRecursive(passos, v, h) == DiagonalRun(v, h, passos)
    ensures QueenDiagonalRecursive(passos, v, h) == DiagonalRun(v, h, passos)
  {
  }

  /** moverBispoLoops: an outer loop per diagonal square printing the vertical label,
      and an inner loop printing the horizontal label once. It prints exactly what
      the recursive generator prints, for every `passos`, negative ones included.
      `inner` records how many times the inner loop ran in each outer iteration. */
  method BishopLoops(passos: int, dirVertical: Label, dirHorizontal: Label)
    returns (out: seq<Label>, ghost inner: seq<int>)
    ensures out == DiagonalRun(dirVertical, dirHorizontal, passos)
    ensures |inner| == Max0(passos)
    ensures forall k :: 0 <= k < |inner| ==> inner[k] == 1
  {
    out := [];
    inner := [];
    var v := 0;
    while v < passos
      invariant 0 <= v <= Max0(passos)
      invariant out == DiagonalRun(dirVertical, dirHorizontal, v)
      invariant |inner| == v
      invariant forall k :: 0 <= k < |inner| ==> inner[k] == 1
    {
      ghost var before := out;
      out := out + [dirVertical];
      var h := 0;
      while h < 1
        invariant 0 <= h <= 1
        invariant out == before + [dirVertical] + (if h == 0 then [] else [dirHorizontal])
      {
        out := out + [dirHorizontal];
        h := h + 1;
      }
      DiagonalSnoc(dirVertical, dirHorizontal, v);
      assert out == before + [dirVertical, dirHorizontal];
      inner := inner + [h];
      v := v + 1;
    }
  }

  /** The knight's inner loop: two counters, vertical `v` and horizontal `h`, run until
      two vertical and one horizontal step are printed. The `continue` skips the
      horizontal branch while a vertical step is still missing, and the `break` ends
      the loop once both counters are complete. It stops with `v == 2` and `h == 1`
      after printing exactly one "L". */
  method KnightL() returns (out: seq<Label>, v: int, h: int)
    ensures v == 2 && h == 1
    ensures out == [Cima, Cima, Direita]
  {
    out := [];
    v, h := 0, 0;
    while v < 2 || h < 1
      invariant 0 <= v <= 2 && 0 <= h <= 1
      // "Direita" is only ever printed once both vertical steps are done
      invariant h == 1 ==> v == 2
      invariant out == LShape[..v + h]
      decreases 3 - v - h
    {
      if v < 2 {
        out := out + [Cima];
        v := v + 1;
        if v < 2 {
          continue;
        }
      }
      if h < 1 {
        out := out + [Direita];
        h := h + 1;
      }
      if v >= 2 && h >= 1 {
        break;
      }
    }
  }

  /** The knight's path as a reference definition: `m` copies of the "L", in order. */
  function KnightPath(m: int): (r: seq<Label>)
    ensures |r| == 3 * Max0(m)
    ensures m <= 0 ==> r == []
    decreases m
  {
    if m <= 0 then [] else KnightPath(m - 1) + LShape
  }

  /** moverCavaloLoops: the outer loop performs the inner "L" loop `movimentos` times. */
  method KnightLoops(movimentos: int) returns (out: seq<Label>)
    ensures out == KnightPath(movimentos)
  {
    out := [];
    var m := 0;
    while m < movimentos
      invariant 0 <= m <= Max0(movimentos)
      invariant out == KnightPath(m)
    {
      var l, v, h := KnightL();
      out := out + l;
      m := m + 1;
    }
  }

  /** Every third label of the knight's path, starting at index 2, is "Direita";
      all the others are "Cima". */
  lemma {:induction false} KnightPathLabels(m: int)
    ensures forall i :: 0 <= i < |KnightPath(m)| ==>
      KnightPath(m)[i] == (if i % 3 == 2 then Direita else Cima)
    decreases Max0(m)
  {
    if m > 0 {
      KnightPathLabels(m - 1);
      var p, q := KnightPath(m), KnightPath(m - 1);
      forall i | 0 <= i < |p|
        ensures p[i] == (if i % 3 == 2 then Direita else Cima)
      {
        if i >= |q| {
          assert i - |q| < 3;
          assert p[i] == LShape[i - |q|];
          assert i % 3 == i - |q|;
        } else {
          assert p[i] == q[i];
        }
      }
    }
  }

  /** Each block of three labels starting at index 3j is one "L". */
  lemma {:induction false} KnightPathBlocks(m: int)
    ensures forall j :: 0 <= j < Max0(m) ==> KnightPath(m)[3 * j..3 * j + 3] == LShape
    decreases Max0(m)
  {
    if m > 0 {
      KnightPathBlocks(m - 1);
      var p, q := KnightPath(m), KnightPath(m - 1);
      assert p == q + LShape;
      forall j | 0 <= j < Max0(m)
        ensures p[3 * j..3 * j + 3] == LShape
      {
        if j < m - 1 {
          assert p[3 * j..3 * j + 3] == q[3 * j..3 * j + 3];
        } else {
          assert 3 * j == |q|;
        }
      }
    }
  }

  /** Over `m` moves the knight goes up `2m` times and right `m` times. */
  lemma {:induction false} KnightPathCounts(m: int)
    ensures multiset(KnightPath(m))[Cima] == 2 * Max0(m)
    ensures multiset(KnightPath(m))[Direita] == Max0(m)
    decreases Max0(m)
  {
    if m > 0 {
      KnightPathCounts(m - 1);
      assert multiset(KnightPath(m)) == multiset(KnightPath(m - 1)) + multiset(LShape);
    }
  }

  /** The blocks the demo prints with its configured step counts, header lines aside. */
  lemma ConfiguredBlocks()
    ensures RookRecursive(PassosTorre, Direita) == [Direita, Direita, Direita]
    ensures BishopRecursive(PassosBispo, Cima, Direita)
         == [Cima, Direita, Cima, Direita, Cima, Direita, Cima, Direita]
    ensures QueenStraightRecursive(PassosRainhaReta, Cima) == [Cima, Cima]
    ensures QueenDiagonalRecursive(PassosRainhaDiag, Cima, Direita)
         == [Cima, Direita, Cima, Direita, Cima, Direita]
    ensures KnightPath(MovimentosCavalo) == LShape + LShape + LShape
  {
  }

  /** The nested-loop bishop block of the demo: the configured four squares. */
  method ConfiguredBishopLoops() returns (out: seq<Label>)
    ensures out == [Cima, Direita, Cima, Direita, Cima, Direita, Cima, Direita]
  {
    ghost var inner;
    out, inner := BishopLoops(PassosBispo, Cima, Direita);
    ConfiguredBlocks();
  }
}
