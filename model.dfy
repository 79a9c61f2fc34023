/** The shared world vocabulary the workers import from east_online_core::model. */
module Model {

  /** `Vector3`: a tile coordinate; the grid's only key. */
  datatype Position = Position(x: int, y: int, z: int)

  /** Facing / moving direction of an actor. */
  datatype Direction = Idle | Up | Right | Down | Left

  /** A placeable as the map definition lists it; only its rotation reaches the tile. */
  datatype Placable = Placable(rotation: int)

  /** `model::Map`: the one-shot construction input of a map worker. */
  datatype MapData = MapData(id: string, name: string, tiles: seq<(Position, Placable)>)
}
