# Chess move-label generators

A Dafny model of the generators in `xadrez_mestre.c`, a console demo that
prints the direction labels a chess piece walks through. The rook and the
queen walk straight. The bishop and the queen also walk diagonally, which is
printed as one vertical and one horizontal label per square. The knight makes
"L" moves: two `Cima` (up) and then one `Direita` (right).

Printing a label is modelled as appending it to an output `seq<string>`.
Every generator is therefore the exact sequence of lines it prints.

- `directions.dfy`, module `Directions`: the two shared recursive generators.
  `imprimeDirecaoRec` becomes `DirectionRun` and `moveDiagonalRec` becomes
  `DiagonalRun`. The module also holds independent characterisations of both
  (`IsStraight`, `IsDiagonal`) and their algebra.
- `pieces.dfy`, module `Pieces`: the piece movers. The recursive wrappers are
  functions. The two loop-based movers, `moverBispoLoops` and
  `moverCavaloLoops`, are methods whose `while` loops follow the C loops. The
  knight's inner loop keeps the C's two counters, its `continue` and its
  `break`. `KnightPath` is a reference definition of the knight's output.

The C parameters are fixed-width C `int`s. The model uses unbounded integers.
This changes nothing: every loop counter stays between 0 and its bound, which
is max(argument, 0) for the outer loops, 1 for the bishop's inner `h`, and 2
and 1 for the knight's `v` and `h`. Recursion only decrements a positive
count. So no C arithmetic here can overflow.

## Model

| member | source | states |
|---|---|---|
| Directions.DirectionRun | xadrez_mestre.c:20-24 | prints exactly max(n,0) labels, each equal to the given direction; nothing when n <= 0 |
| Directions.DiagonalRun | xadrez_mestre.c:29-34 | prints exactly 2*max(n,0) labels, the vertical one at every even index and the horizontal one at every odd index; nothing when n <= 0 |
| Directions.StraightUnique | xadrez_mestre.c:20-24 | any sequence of max(n,0) copies of d is exactly what the straight generator prints, so its characterisation holds in both directions |
| Directions.DiagonalUnique | xadrez_mestre.c:29-34 | any sequence alternating v and h over 2*max(n,0) places is exactly what the diagonal generator prints, so its characterisation holds in both directions |
| Directions.DiagonalSnoc | xadrez_mestre.c:29-34 | one more diagonal square appends exactly the vertical and the horizontal label at the end |
| Directions.DiagonalIsInterleaving | xadrez_mestre.c:26-34 | the diagonal run is the vertical straight run interleaved with the horizontal straight run: one vertical and one horizontal step per square |
| Pieces.RookRecursive | xadrez_mestre.c:41-44 | the rook prints max(passos,0) copies of its direction |
| Pieces.BishopRecursive | xadrez_mestre.c:55-57 | the recursive bishop prints vertical, horizontal alternately, 2*max(passos,0) labels |
| Pieces.QueenStraightRecursive | xadrez_mestre.c:77-79 | the queen's straight move prints max(passos,0) copies of its direction |
| Pieces.QueenDiagonalRecursive | xadrez_mestre.c:81-83 | the queen's diagonal move prints vertical, horizontal alternately, 2*max(passos,0) labels |
| Pieces.WrappersAddNothing | xadrez_mestre.c:41-83 | the rook and straight queen equal the straight generator with their arguments reordered; the recursive bishop and diagonal queen equal the diagonal generator |
| Pieces.BishopLoops | xadrez_mestre.c:60-70 | the nested-loop bishop prints exactly what the recursive diagonal generator prints, for every passos including negative ones; the inner loop runs exactly once in each of the max(passos,0) outer iterations |
| Pieces.KnightL | xadrez_mestre.c:109-134 | the knight's inner counter loop always terminates with v == 2 and h == 1 after printing exactly Cima, Cima, Direita; throughout, 0 <= v <= 2, 0 <= h <= 1, and Direita is printed only once v == 2 |
| Pieces.KnightPath | xadrez_mestre.c:106-135 | m knight moves print exactly 3*max(m,0) labels; nothing when m <= 0 |
| Pieces.KnightLoops | xadrez_mestre.c:106-135 | the nested loops with continue and break print exactly max(movimentos,0) copies of the L in order |
| Pieces.KnightPathLabels | xadrez_mestre.c:96-135 | in the knight's output the label at index i is Direita when i mod 3 == 2 and Cima otherwise |
| Pieces.KnightPathBlocks | xadrez_mestre.c:96-135 | each block of three labels starting at index 3j is [Cima, Cima, Direita] |
| Pieces.KnightPathCounts | xadrez_mestre.c:97-100 | m knight moves go up 2*max(m,0) times and right max(m,0) times |
| Pieces.ConfiguredBishopLoops | xadrez_mestre.c:155-157 | with the configured four squares the nested-loop bishop prints Cima, Direita four times over, the same block as the recursive bishop |
| Pieces.ConfiguredBlocks | xadrez_mestre.c:8-12 | with the configured counts the rook prints Direita three times, the bishop four diagonal squares, the straight queen Cima twice, the diagonal queen three diagonal squares and the knight three L moves |

## Left out

- `main` (xadrez_mestre.c:141-176): its header lines, blank separators and block order are formatted console output. `Pieces.ConfiguredBlocks` and `Pieces.ConfiguredBishopLoops` state only the labels each of the six configured calls prints.
- `system("chcp 65001 > nul")` (xadrez_mestre.c:143): a shell call that only sets the console encoding.
- `printf` and standard output: replaced by appending one label to the output sequence.
- Recursion depth and stack use: the recursive generators are total functions here.
- Pieces.KnightL: the invariants on `v` and `h` at every iteration are loop invariants of the method. They are proved, but the contract only states the final counters and the output.
