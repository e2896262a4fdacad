/**
 * The two-byte wire form of a board position
 * (Assets/Scripts/Networking/CustomTypeSerialization.cs).
 */
module CustomTypeSerialization {
  import opened Mathb
  import opened Wrappers
  import opened BoardPositions

  /** `SerializeBoardPosition`: the x byte followed by the y byte. */
  function SerializeBoardPosition(p: BoardPosition): (data: seq<byte>)
    ensures |data| == 2 && data[0] == p.x && data[1] == p.y
  {
    [p.x, p.y]
  }

  /**
   * `DeserializeBoardPosition`: reads `data[0]` and `data[1]` and passes them to
   * the clamping constructor. Fewer than two bytes makes the indexing throw,
   * which is `None` here.
   */
  function DeserializeBoardPosition(data: seq<byte>): (r: Option<BoardPosition>)
    ensures r.None? <==> |data| < 2
    ensures r.Some? ==> OnBoard(r.value)
  {
    if |data| < 2 then None
    else
      var x := data[0];
      var y := data[1];
      Some(FromBytes(x, y))
  }

  /** Every position the constructor can build survives a round trip. */
  lemma DeserializeSerialize(p: BoardPosition)
    requires OnBoard(p)
    ensures DeserializeBoardPosition(SerializeBoardPosition(p)) == Some(p)
  {
  }

  /** A two-byte message whose bytes are both at most 7 is reproduced exactly. */
  lemma SerializeDeserialize(data: seq<byte>)
    requires |data| == 2 && data[0] <= MAX_COORD && data[1] <= MAX_COORD
    ensures DeserializeBoardPosition(data).Some?
    ensures SerializeBoardPosition(DeserializeBoardPosition(data).value) == data
  {
  }

  /** Bytes after the second are ignored. */
  lemma DeserializeIgnoresTail(data: seq<byte>)
    requires |data| >= 2
    ensures DeserializeBoardPosition(data) == DeserializeBoardPosition(data[..2])
  {
  }

  /** A byte above 7 comes back as 7. */
  lemma DeserializeClamps(data: seq<byte>)
    requires |data| >= 2
    ensures DeserializeBoardPosition(data).value.x == if data[0] <= MAX_COORD then data[0] else MAX_COORD
    ensures DeserializeBoardPosition(data).value.y == if data[1] <= MAX_COORD then data[1] else MAX_COORD
  {
  }
}
