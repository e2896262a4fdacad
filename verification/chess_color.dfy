/** The two sides of the game (Assets/Scripts/ChessColor.cs). */
module ChessColors {
  datatype ChessColor = White | Black

  /** The opposing colour. */
  function Invert(color: ChessColor): (r: ChessColor)
    ensures r != color
    ensures color == White <==> r == Black
  {
    if color == White then Black else White
  }

  /** Inverting twice gives the colour back. */
  lemma InvertInvolution(color: ChessColor)
    ensures Invert(Invert(color)) == color
  {
  }

  /** Every colour is one of a colour and its inverse. */
  lemma InvertCovers(color: ChessColor, other: ChessColor)
    ensures other == color || other == Invert(color)
  {
  }
}
