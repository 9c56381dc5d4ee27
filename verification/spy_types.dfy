/**
 * Value types of the game library that the client core works with:
 * identifiers, board points, factions, character properties, gadgets
 * and the character part of a game-state snapshot.
 */
module SpyTypes {

  datatype Option<+T> = None | Some(value: T)

  /** Character and client identifiers; the core only compares them for equality. */
  type UUID = nat

  datatype Point = Point(x: int, y: int)

  datatype FactionEnum = PLAYER1 | PLAYER2 | NEUTRAL | INVALID

  /**
   * Character properties. The core singles out OBSERVATION; every other
   * property of the game library's enumeration is carried by its ordinal.
   */
  datatype PropertyEnum = OBSERVATION | OtherProperty(ordinal: nat)

  /**
   * The underlying value of the game library's gadget enumeration. The
   * built-in `<` on it is the comparison of two enumerators.
   */
  type GadgetType = nat

  /** A gadget object, shared by reference between the containers that hold it. */
  class Gadget {
    const gadgetType: GadgetType

    constructor (t: GadgetType)
      ensures gadgetType == t
    {
      gadgetType := t;
    }
  }

  datatype Character = Character(
    characterId: UUID,
    coordinates: Point,
    faction: FactionEnum,
    properties: set<PropertyEnum>)

  /** The mutable game-state snapshot, reduced to its set of characters. */
  class State {
    var characters: seq<Character>

    constructor (cs: seq<Character>)
      ensures characters == cs
    {
      characters := cs;
    }
  }
}
