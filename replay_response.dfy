/**
 * The parser's data types that the statistics code consumes. Their defining
 * file is not part of this model: the names and the numbering of the nine
 * mino kinds and the sixteen clear kinds below are the model's own choice,
 * constrained only by the kinds the statistics code names.
 */
module ReplayResponse {

  /** A piece shape or board cell; `Garbage` and `Empty` occur only as cells. */
  datatype Mino = Z | L | O | S | I | J | T | Garbage | Empty

  const MINO_KINDS: nat := 9
  const CLEAR_KINDS: nat := 16
  const COLUMNS: nat := 10
  const ROWS: nat := 40

  /** `shape as usize`: position of the kind in the enumeration. */
  function MinoIndex(m: Mino): (k: nat)
    ensures k < MINO_KINDS
    ensures MinoAt(k) == m
  {
    match m
    case Z => 0 case L => 1 case O => 2 case S => 3 case I => 4
    case J => 5 case T => 6 case Garbage => 7 case Empty => 8
  }

  /** Inverse of `MinoIndex`. */
  function MinoAt(k: nat): Mino
    requires k < MINO_KINDS
  {
    [Z, L, O, S, I, J, T, Garbage, Empty][k]
  }

  /** `MinoAt` and `MinoIndex` are inverse on the nine valid indices. */
  lemma MinoAtIndex()
    ensures forall k :: 0 <= k < MINO_KINDS ==> MinoIndex(MinoAt(k)) == k
  {
  }

  /** True for the seven kinds a player can place. */
  predicate IsPiece(m: Mino)
  {
    m != Garbage && m != Empty
  }

  datatype ClearType =
    | NoClear | Single | Double | Triple | Quad | Penta
    | TspinMini | Tspin | TspinMiniSingle | TspinSingle | TspinMiniDouble
    | TspinDouble | TspinTriple | TspinQuad | TspinPenta | PerfectClear

  /** `clear_type as usize`. */
  function ClearIndex(c: ClearType): (k: nat)
    ensures k < CLEAR_KINDS
    ensures ClearAt(k) == c
  {
    match c
    case NoClear => 0 case Single => 1 case Double => 2 case Triple => 3
    case Quad => 4 case Penta => 5 case TspinMini => 6 case Tspin => 7
    case TspinMiniSingle => 8 case TspinSingle => 9 case TspinMiniDouble => 10
    case TspinDouble => 11 case TspinTriple => 12 case TspinQuad => 13
    case TspinPenta => 14 case PerfectClear => 15
  }

  /** `ClearType::try_from(k)` for the sixteen valid indices. */
  function ClearAt(k: nat): ClearType
    requires k < CLEAR_KINDS
  {
    [NoClear, Single, Double, Triple, Quad, Penta, TspinMini, Tspin,
     TspinMiniSingle, TspinSingle, TspinMiniDouble, TspinDouble,
     TspinTriple, TspinQuad, TspinPenta, PerfectClear][k]
  }

  /** `ClearAt` and `ClearIndex` are inverse on the sixteen valid indices. */
  lemma ClearAtIndex()
    ensures forall k :: 0 <= k < CLEAR_KINDS ==> ClearIndex(ClearAt(k)) == k
  {
  }

  /** A 10 x 40 grid, row 0 at the top, cell (x, y) at index x + 10 * y. */
  type Board = b: seq<Mino> | |b| == 400 witness seq(400, _ => Empty)

  /** One placed piece, as the parser reports it. Frame delays are whole frames here. */
  datatype Placement = Placement(
    shape: Mino,
    clearType: ClearType,
    board: Board,
    garbageCleared: nat,
    linesCleared: nat,
    attack: seq<nat>,
    frameDelay: nat,
    keypresses: nat,
    queue: seq<Mino>,
    btbChain: nat,
    combo: nat,
    btbClear: bool)
}
