/** The `Piece` trait of wasm/src/game/pieces/mod.rs, dispatched on the kind
    of a piece as `enum_dispatch` does for the `Pieces` enum. */
module Dispatch {
  import opened Board
  import opened Pieces
  import Knights
  import Bishops
  import Rooks
  import Queens
  import Kings
  import Pawns
  import opened Rays

  /** The destinations the kind's `moves` visits, in the order it visits
      them. */
  function Destinations(p: Piece, opp: Bits, team: Bits): seq<Bits>
  {
    match p.kind
    case Pawn => Pawns.Destinations(p.bits, p.color, opp, team)
    case Bishop => Bishops.Destinations(p.bits, opp, team)
    case Knight => Knights.Destinations(p.bits, team)
    case Rook => Rooks.Destinations(p.bits, opp, team)
    case Queen => Queens.Destinations(p.bits, opp, team)
    case King => Kings.Destinations(p.bits, opp, team)
  }

  /** The moves `piece.moves(opp, team)` produces. */
  function MovesOf(p: Piece, opp: Bits, team: Bits): seq<Piece>
  {
    AsMoves(p.kind, p.bits, p.color, Destinations(p, opp, team))
  }

  /** `piece.moves(opp, team, moves)`: append the piece's moves. */
  method Moves(p: Piece, opp: Bits, team: Bits, moves: seq<Piece>) returns (res: seq<Piece>)
    ensures res == moves + MovesOf(p, opp, team)
  {
    match p.kind
    case Pawn =>
      var ms := Pawns.Moves(p.bits, p.color, opp, team);
      res := moves + ms;
    case Bishop =>
      var ms := Bishops.Moves(p.bits, p.color, opp, team);
      res := moves + ms;
    case Knight =>
      var ms := Knights.Moves(p.bits, p.color, opp, team);
      res := moves + ms;
    case Rook =>
      res := Rooks.Moves(p.bits, p.color, opp, team, moves);
    case Queen =>
      res := Queens.Moves(p.bits, p.color, opp, team, moves);
    case King =>
      res := Kings.Moves(p.bits, p.color, opp, team, moves);
  }

  /** Every move keeps the piece's kind and colour and is its origin OR one
      destination on the board. */
  lemma MoveShape(p: Piece, opp: Bits, team: Bits)
    ensures |MovesOf(p, opp, team)| == |Destinations(p, opp, team)|
    ensures forall k | 0 <= k < |MovesOf(p, opp, team)| ::
      var m, t := MovesOf(p, opp, team)[k], Destinations(p, opp, team)[k];
      && m.kind == p.kind && m.color == p.color && m.bits == t + p.bits
      && OnBoard(t) && (p.kind != Pawn ==> Disjoint(t, team))
  {
    var ds := Destinations(p, opp, team);
    forall k | 0 <= k < |ds| ensures OnBoard(ds[k]) && (p.kind != Pawn ==> Disjoint(ds[k], team)) {
      assert ds[k] in ds;
      match p.kind {
        case Pawn =>
        case Bishop => SweepKept(p.bits, Bishops.DIRS, opp, team, ds[k]);
        case Knight => Knights.DestinationsKept(p.bits, team);
        case Rook => SweepKept(p.bits, Rooks.DIRS, opp, team, ds[k]);
        case Queen => SweepKept(p.bits, Queens.DIRS, opp, team, ds[k]);
        case King => Kings.Safe(p.bits, opp, team);
      }
    }
  }

  /** A piece on one square never lists that square as a destination. */
  lemma AvoidsOrigin(p: Piece, opp: Bits, team: Bits)
    requires Single(p.bits)
    ensures Disjoint(Union(Destinations(p, opp, team)), p.bits)
  {
    match p.kind
    case Pawn => Pawns.AvoidsOrigin(p.bits, p.color, opp, team);
    case Bishop => Bishops.ExclusiveAvoidsOrigin(p.bits, opp, team);
    case Knight => Knights.ExclusiveAvoidsOrigin(p.bits, team);
    case Rook => Rooks.ExclusiveAvoidsOrigin(p.bits, opp, team);
    case Queen => Queens.ExclusiveAvoidsOrigin(p.bits, opp, team);
    case King => Kings.ExclusiveAvoidsOrigin(p.bits, opp, team);
  }

  /** `m.bits() ^ piece.bits()` over the moves of a piece on one square gives
      back exactly its destinations. */
  lemma XorDestinations(p: Piece, opp: Bits, team: Bits)
    requires Single(p.bits)
    ensures XorBits(MovesOf(p, opp, team), p.bits) == Destinations(p, opp, team)
  {
    AvoidsOrigin(p, opp, team);
    AsMovesXor(p.kind, p.bits, p.color, Destinations(p, opp, team));
  }
}
