/** The persistence gateway: an explicit in-memory store of `Maps` and
    `Characters` records standing in for the Core Data context, with the
    gateway operations of `Persistence`. */
module Store {
  import opened Basics
  import opened Entities

  /** One store-changing call into the gateway, as recorded in the ghost log. */
  datatype GatewayCall =
    | SaveContextCall
    | AddPhotoCall(photo: Bytes, name: string)
    | DeleteMapCall(target: Maps)
    | EditMapNameCall(target: Maps, newTitle: string)
    | SaveCharacterCall(positionX: real, positionY: real, colour: Rgba, size: real, id: Uuid)
    | UpdateCharacterCall(character: Characters, newPosition: Point, newSize: real)

  class Persistence {
    /** The map records registered in the context. */
    var maps: set<Maps>
    /** The character records registered in the context. */
    var characters: set<Characters>
    /** `context.hasChanges`: uncommitted mutations exist. */
    var hasChanges: bool
    /** How many times `context.save()` has run. */
    var saveCount: nat
    /** Every store-changing gateway call made so far, oldest first. */
    ghost var log: seq<GatewayCall>

    /** Relationship integrity: every stored character has a stored owner whose
        set contains it, every member of a stored map's set is a stored
        character owned by that map, and no two stored maps share an id. */
    ghost predicate Valid()
      reads this`maps, this`characters, maps`id, maps`characters, characters`maps
    {
      && (forall c :: c in characters ==> c.maps != null && c.maps in maps && c in c.maps.Members())
      && (forall m, c :: m in maps && c in m.Members() ==> c in characters && c.maps == m)
      && (forall m1, m2 :: m1 in maps && m2 in maps && m1.id.Some? && m1.id == m2.id ==> m1 == m2)
    }

    /** Some stored map carries `id`. */
    ghost predicate Resolves(id: Uuid)
      reads this`maps, maps`id
    {
      exists m :: m in maps && m.id == Some(id)
    }

    /** The stored characters whose owner is `m`. */
    ghost function OwnedBy(m: Maps): (s: set<Characters>)
      reads this`characters, characters`maps
    {
      set c | c in characters && c.maps == m
    }

    /** An empty store with nothing pending. */
    constructor ()
      ensures Valid()
      ensures maps == {} && characters == {}
      ensures !hasChanges && saveCount == 0 && log == []
    {
      maps := {};
      characters := {};
      hasChanges := false;
      saveCount := 0;
      log := [];
    }

    /** The body of `saveContext`: commit exactly when changes are pending. */
    method Commit()
      modifies this`hasChanges, this`saveCount
      ensures !hasChanges
      ensures saveCount == if old(hasChanges) then old(saveCount) + 1 else old(saveCount)
    {
      if hasChanges {
        saveCount := saveCount + 1;
        hasChanges := false;
      }
    }

    /** `saveContext()` called from outside the gateway. With nothing pending
        it changes nothing but the log. */
    method SaveContext()
      modifies this`hasChanges, this`saveCount, this`log
      ensures !hasChanges
      ensures saveCount == if old(hasChanges) then old(saveCount) + 1 else old(saveCount)
      ensures log == old(log) + [SaveContextCall]
    {
      log := log + [SaveContextCall];
      Commit();
    }

    /** Registers a new map record in the context, leaving it pending. */
    method Register(m: Maps)
      requires Valid() && m !in maps && m.characters == None
      requires m.id.Some? ==> forall other :: other in maps ==> other.id != m.id
      modifies this`maps, this`hasChanges
      ensures Valid()
      ensures maps == old(maps) + {m} && hasChanges
    {
      maps := maps + {m};
      hasChanges := true;
    }

    /** `Maps(context:)`: registers a blank map record in the context. */
    method InsertMap() returns (m: Maps)
      requires Valid()
      modifies this`maps, this`hasChanges
      ensures Valid() && fresh(m)
      ensures maps == old(maps) + {m} && hasChanges
      ensures m.date == None && m.mapImage == None && m.mapName == None && m.id == None
      ensures m.characters == None
    {
      m := new Maps();
      Register(m);
    }

    /** `addPhoto(photo:name:)`. The image arrives already encoded; `now` is the
        clock reading and `freshId` the generator's new UUID, which no stored
        map carries. */
    method AddPhoto(photo: Bytes, name: string, now: Date, freshId: Uuid) returns (m: Maps)
      requires Valid()
      requires forall other :: other in maps ==> other.id != Some(freshId)
      modifies this
      ensures Valid() && fresh(m)
      ensures maps == old(maps) + {m} && characters == old(characters)
      ensures m.mapImage == Some(photo) && m.date == Some(now)
      ensures m.mapName == Some(name) && m.id == Some(freshId) && m.characters == None
      ensures forall other :: other in old(maps) ==> other.id != m.id
      ensures !hasChanges && saveCount == old(saveCount) + 1
      ensures log == old(log) + [AddPhotoCall(photo, name)]
    {
      log := log + [AddPhotoCall(photo, name)];
      m := new Maps();
      m.mapImage := Some(photo);
      m.date := Some(now);
      m.mapName := Some(name);
      m.id := Some(freshId);
      Register(m);
      Commit();
    }

    /** `fetchMaps()`: every stored map once, in no particular order. */
    method FetchMaps() returns (a: seq<Maps>)
      ensures Distinct(a)
      ensures forall m :: m in a <==> m in maps
    {
      a := SetToSeq(maps);
    }

    /** `fetchMap(by:)`: the first fetched map carrying `id`, or null exactly
        when no stored map carries it. */
    method FetchMap(id: Uuid) returns (r: Maps?)
      ensures r != null ==> r in maps && r.id == Some(id)
      ensures r == null <==> forall m :: m in maps ==> m.id != Some(id)
    {
      var all := FetchMaps();
      var i := 0;
      while i < |all|
        invariant 0 <= i <= |all|
        invariant forall k :: 0 <= k < i ==> all[k].id != Some(id)
      {
        if all[i].id == Some(id) {
          return all[i];
        }
        i := i + 1;
      }
      return null;
    }

    /** `deleteMap(map:)`: removes the map and, by the schema's cascade rule,
        the characters it owns; then commits. */
    method DeleteMap(m: Maps)
      requires Valid()
      modifies this
      ensures Valid()
      ensures maps == old(maps) - {m}
      ensures characters == set c | c in old(characters) && c.maps != m
      ensures !hasChanges
      ensures saveCount == if old(hasChanges) || m in old(maps) then old(saveCount) + 1 else old(saveCount)
      ensures log == old(log) + [DeleteMapCall(m)]
    {
      log := log + [DeleteMapCall(m)];
      if m in maps {
        maps := maps - {m};
        characters := set c | c in characters && c.maps != m;
        hasChanges := true;
      }
      Commit();
    }

    /** `editMapName(id:newTitle:)`: renames the map when the context can
        resolve it, then commits; otherwise changes nothing. */
    method EditMapName(m: Maps, newTitle: string)
      requires Valid()
      modifies this`hasChanges, this`saveCount, this`log, m`mapName
      ensures Valid()
      ensures m in maps ==> m.mapName == Some(newTitle) && !hasChanges && saveCount == old(saveCount) + 1
      ensures m !in maps ==> m.mapName == old(m.mapName) && hasChanges == old(hasChanges) && saveCount == old(saveCount)
      ensures log == old(log) + [EditMapNameCall(m, newTitle)]
    {
      log := log + [EditMapNameCall(m, newTitle)];
      if m in maps {
        m.mapName := Some(newTitle);
        hasChanges := true;
        Commit();
      }
    }

    /** The registration done by `Characters(context:)` followed by
        `map.addToCharacters(character)`: `c` becomes a stored character owned
        by `owner`. */
    method Attach(owner: Maps, c: Characters)
      requires Valid() && owner in maps && c !in characters && c.maps == null
      modifies this`characters, this`hasChanges, owner, c
      ensures Valid() && hasChanges
      ensures characters == old(characters) + {c}
      ensures c.maps == owner && owner.characters == Some(old(owner.Members()) + {c})
      ensures unchanged(owner`date, owner`mapImage, owner`mapName, owner`id)
      ensures unchanged(c`characterLocationX, c`characterLocationY, c`characterSize)
      ensures unchanged(c`characterColorR, c`characterColorG, c`characterColorB, c`characterColorA)
      ensures unchanged(c`characterName)
    {
      characters := characters + {c};
      hasChanges := true;
      owner.AddToCharacters(c);
      forall x | x in characters
        ensures x.maps != null && x.maps in maps && x in x.maps.Members()
      {
        if x != c {
          assert x in old(x.maps.Members());
        }
      }
      forall m, x | m in maps && x in m.Members()
        ensures x in characters && x.maps == m
      {
        if m == owner && x != c {
          assert x in old(owner.Members());
        }
      }
    }

    /** The success path of `saveCharacter`: a new character with the given
        attributes, attached to `owner`, then a commit. */
    method CreateCharacter(owner: Maps, positionX: real, positionY: real, colorA: real,
                           colorR: real, colorG: real, colorB: real, size: real)
      returns (c: Characters)
      requires Valid() && owner in maps
      modifies this`characters, this`hasChanges, this`saveCount, owner
      ensures Valid() && fresh(c)
      ensures characters == old(characters) + {c}
      ensures c.characterLocationX == positionX && c.characterLocationY == positionY
      ensures c.characterColorR == colorR && c.characterColorG == colorG
      ensures c.characterColorB == colorB && c.characterColorA == colorA
      ensures c.characterSize == size && c.characterName == None
      ensures c.maps == owner && owner.characters == Some(old(owner.Members()) + {c})
      ensures unchanged(owner`date, owner`mapImage, owner`mapName, owner`id)
      ensures !hasChanges && saveCount == old(saveCount) + 1
    {
      c := new Characters();
      c.characterLocationX := positionX;
      c.characterLocationY := positionY;
      c.characterColorA := colorA;
      c.characterColorR := colorR;
      c.characterColorG := colorG;
      c.characterColorB := colorB;
      c.characterSize := size;
      Attach(owner, c);
      Commit();
    }

    /** `saveCharacter(...)`: when a stored map carries `id`, creates one
        character with the given position, colour and size, no name, owned by
        that map, and commits; otherwise returns null and changes nothing. */
    method SaveCharacter(positionX: real, positionY: real, colorA: real, colorR: real,
                         colorG: real, colorB: real, size: real, id: Uuid)
      returns (c: Characters?)
      requires Valid()
      modifies this, maps
      ensures Valid()
      ensures log == old(log) + [SaveCharacterCall(positionX, positionY, Rgba(colorR, colorG, colorB, colorA), size, id)]
      ensures maps == old(maps)
      ensures c == null ==>
                && !Resolves(id)
                && characters == old(characters) && unchanged(maps)
                && hasChanges == old(hasChanges) && saveCount == old(saveCount)
      ensures c != null ==>
                && fresh(c) && characters == old(characters) + {c}
                && c.characterLocationX == positionX && c.characterLocationY == positionY
                && c.characterColorR == colorR && c.characterColorG == colorG
                && c.characterColorB == colorB && c.characterColorA == colorA
                && c.characterSize == size && c.characterName == None
                && c.maps != null && c.maps in maps && c.maps.id == Some(id)
                && !hasChanges && saveCount == old(saveCount) + 1
      ensures c != null ==>
                var owner := c.maps;
                && owner.characters == Some(old(owner.Members()) + {c})
                && unchanged(owner`date, owner`mapImage, owner`mapName, owner`id)
                && forall m :: m in maps && m != owner ==> unchanged(m)
    {
      log := log + [SaveCharacterCall(positionX, positionY, Rgba(colorR, colorG, colorB, colorA), size, id)];
      var owner := FetchMap(id);
      if owner == null {
        return null;
      }
      c := CreateCharacter(owner, positionX, positionY, colorA, colorR, colorG, colorB, size);
    }

    /** `fetchCharacters(for:)`: exactly the stored characters owned by `m`,
        each once, in no particular order. */
    method FetchCharacters(m: Maps) returns (a: seq<Characters>)
      ensures Distinct(a)
      ensures forall c :: c in a <==> c in characters && c.maps == m
      ensures |a| == |OwnedBy(m)|
    {
      var owned := set c | c in characters && c.maps == m;
      a := SetToSeq(owned);
      assert owned == OwnedBy(m);
    }

    /** `updateCharacter(character:newPosition:newSize:)`: writes the position
        and size, nothing else, and commits. */
    method UpdateCharacter(c: Characters, newPosition: Point, newSize: real)
      requires Valid()
      modifies this`hasChanges, this`saveCount, this`log
      modifies c`characterLocationX, c`characterLocationY, c`characterSize
      ensures Valid()
      ensures c.characterLocationX == newPosition.x && c.characterLocationY == newPosition.y
      ensures c.characterSize == newSize
      ensures unchanged(c`characterColorR, c`characterColorG, c`characterColorB, c`characterColorA)
      ensures unchanged(c`characterName, c`maps)
      ensures !hasChanges && saveCount == old(saveCount) + 1
      ensures log == old(log) + [UpdateCharacterCall(c, newPosition, newSize)]
    {
      log := log + [UpdateCharacterCall(c, newPosition, newSize)];
      c.characterLocationX := newPosition.x;
      c.characterLocationY := newPosition.y;
      c.characterSize := newSize;
      hasChanges := true;
      Commit();
    }
  }

  /** Two renames in a row: the second name is the one stored. */
  method RenameTwice(p: Persistence, m: Maps, first: string, second: string)
    requires p.Valid() && m in p.maps
    modifies p, m
    ensures p.Valid()
    ensures m.mapName == Some(second) && m.Name() == second
    ensures p.log == old(p.log) + [EditMapNameCall(m, first), EditMapNameCall(m, second)]
  {
    p.EditMapName(m, first);
    p.EditMapName(m, second);
  }

  /** A character saved under a stored map's id reads back, through the
      getters, exactly the attributes it was saved with, and the placeholder
      name. */
  method SaveThenRead(p: Persistence, x: real, y: real, colour: Rgba, size: real, id: Uuid)
    returns (c: Characters?)
    requires p.Valid() && p.Resolves(id)
    modifies p, p.maps
    ensures p.Valid() && c != null
    ensures c.LocationX() == x && c.LocationY() == y && c.Size() == size
    ensures c.ColorR() == colour.red && c.ColorG() == colour.green
    ensures c.ColorB() == colour.blue && c.ColorA() == colour.alpha
    ensures c.Name() == DefaultCharacterName
  {
    c := p.SaveCharacter(x, y, colour.alpha, colour.red, colour.green, colour.blue, size, id);
  }

  /** After a delete, neither the map nor any character it owned is fetched again. */
  method DeleteThenFetch(p: Persistence, m: Maps) returns (remaining: seq<Maps>, owned: seq<Characters>)
    requires p.Valid()
    modifies p
    ensures p.Valid()
    ensures m !in remaining
    ensures forall c :: c !in owned
  {
    p.DeleteMap(m);
    remaining := p.FetchMaps();
    owned := p.FetchCharacters(m);
  }

  /** A fetch by the id of a map just added finds that map, with its image and name. */
  method AddThenFetch(p: Persistence, photo: Bytes, name: string, now: Date, freshId: Uuid)
    returns (m: Maps, found: Maps?)
    requires p.Valid()
    requires forall other :: other in p.maps ==> other.id != Some(freshId)
    modifies p
    ensures p.Valid()
    ensures found == m && found.Image() == photo && found.Name() == name
    ensures forall t :: found.TheDate(t) == now
  {
    m := p.AddPhoto(photo, name, now, freshId);
    found := p.FetchMap(freshId);
  }
}
