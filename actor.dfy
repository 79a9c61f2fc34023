/** A connected player's avatar on a map (src/map/actor.rs). */
module MapActor {
  import opened Model

  /** The movement state: where the actor is headed, and when (in milliseconds)
      it last moved onto a tile. */
  datatype Movable = Movable(direction: Direction, movedAt: int)

  datatype Actor = Actor(id: string, movable: Movable)

  /** `Movable::new()`, `now` standing for `Instant::now()`. */
  function NewMovable(now: int): (m: Movable)
    ensures m.direction == Idle
    ensures m.movedAt == now
  {
    Movable(Idle, now)
  }

  /** `Actor::new(id)`. */
  function NewActor(id: string, now: int): (a: Actor)
    ensures a.id == id
    ensures a.movable.direction == Idle && a.movable.movedAt == now
  {
    Actor(id, NewMovable(now))
  }
}
