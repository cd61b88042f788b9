/** Choosing the block state for an item placed against a face
  * (game/blocks.go). The block and item tables, `block.FromItem` and the
  * blocks' `MinStateId` come from generated code that is not part of this
  * model; they are given as parameters. Items and blocks, pointers in the
  * source, are compared by value. */
module Blocks {
  import opened Bytes
  import opened Entities

  /** The two state ids of a block this code reads. */
  datatype Block = Block(defaultStateId: uint16, minStateId: uint16)

  /** An item, known by its id in the item table. */
  datatype Item = Item(id: nat)

  /** The table entries the code names: the two torch items and their
    * standing and wall blocks. */
  datatype Torches = Torches(
    torch: Item, redstoneTorch: Item,
    torchBlock: Block, wallTorch: Block, redstoneTorchBlock: Block, redstoneWallTorch: Block)

  /** `transformTorch`: nothing on the bottom face, the standing torch on
    * the top face, and otherwise the wall torch's state for that face,
    * `MinStateId + face - 2` in 16-bit arithmetic. */
  function TransformTorch(face: Face, normal: Block, wall: Block): (r: (uint16, bool))
    ensures r.1 <==> face != Bottom
    ensures !r.1 ==> r.0 == 0
  {
    if face == Bottom then (0, false)
    else if face == Top then (normal.defaultStateId, true)
    else ((wall.minStateId + FaceId(face) - 2) % 0x1_0000, true)
  }

  /** The four side faces pick four consecutive wall states, north first,
    * when they fit below 2^16. */
  lemma WallStates(normal: Block, wall: Block)
    requires wall.minStateId + 3 < 0x1_0000
    ensures TransformTorch(North, normal, wall) == (wall.minStateId, true)
    ensures TransformTorch(South, normal, wall) == (wall.minStateId + 1, true)
    ensures TransformTorch(West, normal, wall) == (wall.minStateId + 2, true)
    ensures TransformTorch(East, normal, wall) == (wall.minStateId + 3, true)
  {
  }

  /** Distinct faces that are accepted give distinct states, as long as the
    * wall states do not wrap and the standing state is not one of them. */
  lemma TorchFacesDistinct(f: Face, g: Face, normal: Block, wall: Block)
    requires wall.minStateId + 3 < 0x1_0000
    requires !(wall.minStateId <= normal.defaultStateId <= wall.minStateId + 3)
    requires f != g && f != Bottom && g != Bottom
    ensures TransformTorch(f, normal, wall).0 != TransformTorch(g, normal, wall).0
  {
    WallStates(normal, wall);
  }

  /** `TransformItemToStateId`: the two torches choose by face; any other
    * item places its block's default state. */
  function TransformItemToStateId(itm: Item, face: Face, t: Torches, fromItem: Item -> Block): (r: (uint16, bool))
    ensures r.1 ==> face != Bottom || (itm != t.torch && itm != t.redstoneTorch)
  {
    if itm == t.torch then TransformTorch(face, t.torchBlock, t.wallTorch)
    else if itm == t.redstoneTorch then TransformTorch(face, t.redstoneTorchBlock, t.redstoneWallTorch)
    else (fromItem(itm).defaultStateId, true)
  }

  /** Only a torch placed on the bottom face is refused. */
  lemma OnlyTorchesRefuse(itm: Item, face: Face, t: Torches, fromItem: Item -> Block)
    ensures !TransformItemToStateId(itm, face, t, fromItem).1 <==>
      (itm == t.torch || itm == t.redstoneTorch) && face == Bottom
  {
  }

  /** On the top face each torch gives its own standing block's default
    * state, and every other item its block's default state on any face. */
  lemma ItemPlacement(itm: Item, face: Face, t: Torches, fromItem: Item -> Block)
    ensures itm == t.torch && face == Top ==>
      TransformItemToStateId(itm, face, t, fromItem) == (t.torchBlock.defaultStateId, true)
    ensures itm == t.redstoneTorch && itm != t.torch && face == Top ==>
      TransformItemToStateId(itm, face, t, fromItem) == (t.redstoneTorchBlock.defaultStateId, true)
    ensures itm != t.torch && itm != t.redstoneTorch ==>
      TransformItemToStateId(itm, face, t, fromItem) == (fromItem(itm).defaultStateId, true)
  {
  }
}
