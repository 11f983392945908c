/** The two Core Data entities, `Maps` and `Characters`, with their stored
    attributes, the default-substituting read accessors and the generated
    to-many relationship accessors. Both are objects that the gateway and the
    editor update in place, so both are classes. They share one module because
    each refers to the other. */
module Entities {
  import opened Basics

  /** Label shown for a map whose name was never set. */
  const DefaultMapName: string := "My Map"

  /** Label shown for a character whose name was never set. */
  const DefaultCharacterName: string := "Billy Bob"

  /** A token placed on a map. The numeric attributes are non-optional, so they
      are always readable; the name and the owner are optional. */
  class Characters {
    var characterColorR: real
    var characterLocationX: real
    var characterName: Option<string>
    var characterSize: real
    var characterLocationY: real
    var characterColorG: real
    var characterColorB: real
    var characterColorA: real
    /** The owning map (the inverse of `Maps.characters`): at most one. */
    var maps: Maps?

    /** `Characters(context:)`: a blank record, with zero numeric attributes,
        no name and no owner. */
    constructor ()
      ensures characterLocationX == 0.0 && characterLocationY == 0.0 && characterSize == 0.0
      ensures characterColorR == 0.0 && characterColorG == 0.0
      ensures characterColorB == 0.0 && characterColorA == 0.0
      ensures characterName == None && maps == null
    {
      characterColorR := 0.0;
      characterLocationX := 0.0;
      characterName := None;
      characterSize := 0.0;
      characterLocationY := 0.0;
      characterColorG := 0.0;
      characterColorB := 0.0;
      characterColorA := 0.0;
      maps := null;
    }

    function ColorR(): (r: real)
      reads this
      ensures r == characterColorR
    {
      characterColorR
    }

    function LocationX(): (x: real)
      reads this
      ensures x == characterLocationX
    {
      characterLocationX
    }

    /** The display name: the stored one, or the placeholder when absent. */
    function Name(): (s: string)
      reads this
      ensures characterName.Some? ==> s == characterName.value
      ensures characterName.None? ==> s == DefaultCharacterName
    {
      match characterName
      case Some(n) => n
      case None => DefaultCharacterName
    }

    function Size(): (s: real)
      reads this
      ensures s == characterSize
    {
      characterSize
    }

    function LocationY(): (y: real)
      reads this
      ensures y == characterLocationY
    {
      characterLocationY
    }

    function ColorG(): (g: real)
      reads this
      ensures g == characterColorG
    {
      characterColorG
    }

    function ColorB(): (b: real)
      reads this
      ensures b == characterColorB
    {
      characterColorB
    }

    function ColorA(): (a: real)
      reads this
      ensures a == characterColorA
    {
      characterColorA
    }
  }

  /** A stored annotated photo. Every attribute is optional in the schema. */
  class Maps {
    var date: Option<Date>
    var mapImage: Option<Bytes>
    var mapName: Option<string>
    var id: Option<Uuid>
    /** The to-many relationship; `None` plays the part of a nil `NSSet`. */
    var characters: Option<set<Characters>>

    /** `Maps(context:)`: a blank record with every attribute unset. */
    constructor ()
      ensures date == None && mapImage == None && mapName == None && id == None
      ensures characters == None
    {
      date := None;
      mapImage := None;
      mapName := None;
      id := None;
      characters := None;
    }

    /** The stored date, or the current time `now` (a clock reading) when unset. */
    function TheDate(now: Date): (d: Date)
      reads this
      ensures date.Some? ==> d == date.value
      ensures date.None? ==> d == now
    {
      match date
      case Some(v) => v
      case None => now
    }

    /** The stored image bytes, or the empty payload when unset. */
    function Image(): (b: Bytes)
      reads this
      ensures mapImage.Some? ==> b == mapImage.value
      ensures mapImage.None? ==> b == []
    {
      match mapImage
      case Some(v) => v
      case None => []
    }

    /** The display name: the stored one, or the fallback label when unset. */
    function Name(): (s: string)
      reads this
      ensures mapName.Some? ==> s == mapName.value
      ensures mapName.None? ==> s == DefaultMapName
    {
      match mapName
      case Some(n) => n
      case None => DefaultMapName
    }

    /** The relationship as a set, empty when it is nil. */
    function Members(): (s: set<Characters>)
      reads this`characters
      ensures characters.Some? ==> s == characters.value
      ensures characters.None? ==> s == {}
    {
      match characters
      case Some(cs) => cs
      case None => {}
    }

    /** `characterArray`: the owned characters as an array in some order,
        each exactly once, and empty when the relationship is nil. */
    method CharacterArray() returns (a: seq<Characters>)
      ensures Distinct(a)
      ensures forall c :: c in a <==> c in Members()
      ensures characters.None? ==> a == []
    {
      a := SetToSeq(Members());
    }

    /** `addToCharacters(_:)`: makes `c` a member. Core Data keeps the inverse
        relationship: `c`'s owner becomes this map, and a previous owner loses `c`. */
    method AddToCharacters(c: Characters)
      modifies this, c, c.maps
      ensures characters == Some(old(Members()) + {c})
      ensures c.maps == this
      ensures old(c.maps) != null && old(c.maps) != this ==>
                old(c.maps).characters == Some(old(c.maps.Members()) - {c})
      ensures var previous := old(c.maps);
              previous != null && previous != this ==>
                unchanged(previous`date, previous`mapImage, previous`mapName, previous`id)
      ensures date == old(date) && mapImage == old(mapImage)
      ensures mapName == old(mapName) && id == old(id)
      ensures unchanged(c`characterLocationX, c`characterLocationY, c`characterSize)
      ensures unchanged(c`characterColorR, c`characterColorG, c`characterColorB, c`characterColorA)
      ensures unchanged(c`characterName)
    {
      var previous := c.maps;
      if previous != null && previous != this {
        previous.characters := Some(previous.Members() - {c});
      }
      characters := Some(Members() + {c});
      c.maps := this;
    }

    /** `removeFromCharacters(_:)`: makes `c` a non-member; when this map owned
        `c`, the inverse relationship is cleared as well. */
    method RemoveFromCharacters(c: Characters)
      modifies this, c
      ensures characters == Some(old(Members()) - {c})
      ensures c.maps == if old(c.maps) == this then null else old(c.maps)
      ensures date == old(date) && mapImage == old(mapImage)
      ensures mapName == old(mapName) && id == old(id)
      ensures unchanged(c`characterLocationX, c`characterLocationY, c`characterSize)
      ensures unchanged(c`characterColorR, c`characterColorG, c`characterColorB, c`characterColorA)
      ensures unchanged(c`characterName)
    {
      characters := Some(Members() - {c});
      if c.maps == this {
        c.maps := null;
      }
    }
  }

  /** Adding the same character twice leaves the same membership as adding it once. */
  method AddToCharactersIdempotent(m: Maps, c: Characters)
    modifies m, c, c.maps
    ensures m.Members() == old(m.Members()) + {c}
    ensures c.maps == m
  {
    m.AddToCharacters(c);
    m.AddToCharacters(c);
  }
}
