/** entity.ts: things placed on the map, and the agents simulation.ts creates. */
module Entities {
  import opened Grid

  type Location = Point

  /** `{sprite}`: the name of the icon drawn for the entity. */
  datatype Appearance = Appearance(sprite: string)

  /** The location `moveBy(dx, dy)` assigns: shifted by the delta, with no bounds check. */
  function Displaced(l: Location, dx: int, dy: int): Location
  {
    Point(l.x + dx, l.y + dy)
  }

  /** Moving back by the opposite delta restores the location. */
  lemma DisplacedInverse(l: Location, dx: int, dy: int)
    ensures Displaced(Displaced(l, dx, dy), -dx, -dy) == l
  {
  }

  /** Two moves in a row are one move by the summed delta. */
  lemma DisplacedCompose(l: Location, a: int, b: int, c: int, d: int)
    ensures Displaced(Displaced(l, a, b), c, d) == Displaced(l, a + c, b + d)
  {
  }

  /** Nothing keeps a displaced location inside the map: one step east of
      the map's south-east corner is already outside. */
  lemma DisplacedIgnoresBounds()
    ensures GameMap.InBounds(Point(10, 10)) && !GameMap.InBounds(Displaced(Point(10, 10), 1, 0))
  {
  }

  class Entity {
    var location: Location
    var appearance: Appearance

    constructor (location: Location, appearance: Appearance)
      ensures this.location == location && this.appearance == appearance
    {
      this.location := location;
      this.appearance := appearance;
    }

    /** `moveBy(dx, dy)`: shift the location; the appearance stays. */
    method MoveBy(dx: int, dy: int)
      modifies this
      ensures location == Displaced(old(location), dx, dy)
      ensures appearance == old(appearance)
    {
      location := Point(location.x + dx, location.y + dy);
    }
  }

  /** An agent: an entity with an identifier. */
  class Agent {
    const id: string
    var location: Location
    var appearance: Appearance

    constructor (id: string, location: Location, appearance: Appearance)
      ensures this.id == id && this.location == location && this.appearance == appearance
    {
      this.id := id;
      this.location := location;
      this.appearance := appearance;
    }
  }
}
