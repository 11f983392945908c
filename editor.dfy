/** The map editor's session state: the tokens shown over the map image, the
    selection, the lock, the title and the new-map flag, together with the
    event handlers that change them and call into the gateway. */
module Editor {
  import opened Basics
  import opened Entities
  import opened Store

  /** The diameter of a token created by the add button. */
  const NewCircleSize: real := 100.0

  /** One token on screen: its position, colour, diameter and the stored
      character behind it, if any. */
  datatype CircleData = CircleData(position: Point, color: Rgba, size: real, character: Characters?)

  /** The colour stored on a character. */
  function ColorOf(c: Characters): (k: Rgba)
    reads c
    ensures k.red == c.ColorR() && k.green == c.ColorG()
    ensures k.blue == c.ColorB() && k.alpha == c.ColorA()
  {
    Rgba(c.characterColorR, c.characterColorG, c.characterColorB, c.characterColorA)
  }

  /** Token `d` shows exactly what character `c` stores. */
  predicate Mirrors(d: CircleData, c: Characters)
    reads c
  {
    && d.character == c
    && d.position == Point(c.characterLocationX, c.characterLocationY)
    && d.size == c.characterSize
    && d.color == ColorOf(c)
  }

  /** The transformation inside `loadCharacters`: one token per character, in
      the same order, each showing that character. */
  function Hydrate(cs: seq<Characters>): (r: seq<CircleData>)
    reads cs
    ensures |r| == |cs|
    ensures forall i :: 0 <= i < |cs| ==> Mirrors(r[i], cs[i])
  {
    if cs == [] then []
    else
      var c := cs[0];
      [CircleData(Point(c.characterLocationX, c.characterLocationY), ColorOf(c), c.characterSize, c)]
        + Hydrate(cs[1..])
  }

  /** Tokens backed by pairwise different characters drawn from `owned` are
      no more numerous than `owned`. */
  lemma {:induction false} TokensBound(tokens: seq<CircleData>, owned: set<Characters>)
    requires forall i, j :: 0 <= i < j < |tokens| ==> tokens[i].character != tokens[j].character
    requires forall i :: 0 <= i < |tokens| ==> tokens[i].character in owned
    ensures |tokens| <= |owned|
  {
    if tokens != [] {
      var first := tokens[0].character;
      var rest := tokens[1..];
      forall i | 0 <= i < |rest|
        ensures rest[i].character in owned - {first}
      {
        assert rest[i] == tokens[i + 1];
      }
      forall i, j | 0 <= i < j < |rest|
        ensures rest[i].character != rest[j].character
      {
        assert rest[i] == tokens[i + 1] && rest[j] == tokens[j + 1];
      }
      TokensBound(rest, owned - {first});
    }
  }

  class MapEditor {
    /** `Persistence.shared`. */
    const store: Persistence
    var mapImage: Bytes
    /** The `map` state: the record being edited. */
    var editedMap: Maps?
    var circles: seq<CircleData>
    var locked: bool
    var title: string
    var selectedCircleIndex: Option<nat>
    var newMap: bool

    /** Token `d` is backed by a stored character of this editor's map, and
        shows that character's colour. */
    ghost predicate Backed(d: CircleData)
      reads this, store, store.characters
    {
      && d.character != null
      && d.character in store.characters
      && d.character.maps == editedMap
      && d.color == ColorOf(d.character)
    }

    /** The session invariant: the store is consistent, the editor's map is
        stored, the selection is a valid index, and every token is backed by
        its own stored character of the map, so the list and the store agree. */
    ghost predicate Valid()
      reads this, store, store.maps`id, store.maps`characters, store.characters
    {
      && store.Valid()
      && (editedMap != null ==> editedMap in store.maps)
      && (editedMap == null ==> circles == [])
      && (selectedCircleIndex.Some? ==> selectedCircleIndex.value < |circles|)
      && (forall i :: 0 <= i < |circles| ==> Backed(circles[i]))
      && (forall i, j :: 0 <= i < j < |circles| ==> circles[i].character != circles[j].character)
    }

    /** The tokens are exactly the stored characters of `m`, each once, each
        showing what is stored. */
    ghost predicate ShowsExactly(m: Maps)
      reads this, store, store.characters
    {
      && |circles| == |store.OwnedBy(m)|
      && (forall i :: 0 <= i < |circles| ==>
            && circles[i].character != null
            && circles[i].character in store.characters
            && Mirrors(circles[i], circles[i].character))
      && (forall c :: c in store.characters && c.maps == m ==>
            exists i :: 0 <= i < |circles| && circles[i].character == c)
    }

    /** `MapEditor(map:id:mapImage:locked:newMap:needsRefresh:)`. */
    constructor (store: Persistence, editedMap: Maps?, mapImage: Bytes, locked: bool, newMap: bool)
      requires store.Valid()
      requires editedMap != null ==> editedMap in store.maps
      ensures Valid()
      ensures this.store == store && this.editedMap == editedMap && this.mapImage == mapImage
      ensures this.locked == locked && this.newMap == newMap
      ensures circles == [] && title == DefaultMapName && selectedCircleIndex == None
    {
      this.store := store;
      this.editedMap := editedMap;
      this.mapImage := mapImage;
      this.locked := locked;
      this.newMap := newMap;
      circles := [];
      title := DefaultMapName;
      selectedCircleIndex := None;
    }

    /** `loadCharacters(for: map)`, for the editor's own map: replaces the
        tokens by one per stored character of the map. */
    method LoadCharacters()
      requires Valid() && editedMap != null
      modifies this`circles
      ensures Valid()
      ensures ShowsExactly(editedMap)
    {
      ghost var owned := store.OwnedBy(editedMap);
      TokensWithinMap(owned);
      var fetched := store.FetchCharacters(editedMap);
      assert forall c :: c in fetched <==> c in owned;
      circles := Hydrate(fetched);
      HydratedTokens(fetched, owned);
    }

    /** In a valid session there are no more tokens than stored characters of
        the edited map. */
    lemma TokensWithinMap(owned: set<Characters>)
      requires Valid() && editedMap != null && owned == store.OwnedBy(editedMap)
      ensures |circles| <= |owned|
    {
      forall i | 0 <= i < |circles|
        ensures circles[i].character in owned
      {
        assert Backed(circles[i]);
      }
      TokensBound(circles, owned);
    }

    /** Tokens hydrated from exactly the map's stored characters, each listed
        once, keep the session invariant and show exactly that map. */
    lemma HydratedTokens(fetched: seq<Characters>, owned: set<Characters>)
      requires store.Valid() && editedMap != null && editedMap in store.maps
      requires circles == Hydrate(fetched)
      requires owned == store.OwnedBy(editedMap)
      requires Distinct(fetched) && |fetched| == |owned|
      requires forall c :: c in fetched <==> c in owned
      requires selectedCircleIndex.Some? ==> selectedCircleIndex.value < |fetched|
      ensures Valid() && ShowsExactly(editedMap)
    {
      assert forall c :: c in owned <==> c in store.characters && c.maps == editedMap;
      forall i | 0 <= i < |circles|
        ensures Backed(circles[i]) && Mirrors(circles[i], fetched[i])
      {
        assert fetched[i] in fetched;
      }
      forall i, j | 0 <= i < j < |circles|
        ensures circles[i].character != circles[j].character
      {
        assert Mirrors(circles[i], fetched[i]) && Mirrors(circles[j], fetched[j]);
      }
      forall c | c in store.characters && c.maps == editedMap
        ensures exists i :: 0 <= i < |circles| && circles[i].character == c
      {
        var i :| 0 <= i < |fetched| && fetched[i] == c;
        assert circles[i].character == c;
      }
    }

    /** The new-map branch of `onAppear`: inserts a map with the image and the
        title, but no id and no date, saves and clears `newMap`. */
    method CreateMap()
      requires Valid() && newMap && editedMap == null
      modifies this`editedMap, this`newMap, store
      ensures Valid()
      ensures editedMap != null && fresh(editedMap)
      ensures store.maps == old(store.maps) + {editedMap} && store.characters == old(store.characters)
      ensures editedMap.mapImage == Some(mapImage) && editedMap.mapName == Some(title)
      ensures editedMap.id == None && editedMap.date == None && editedMap.characters == None
      ensures !newMap
      ensures store.log == old(store.log) + [SaveContextCall] && !store.hasChanges
    {
      var m := store.InsertMap();
      m.mapImage := Some(mapImage);
      m.mapName := Some(title);
      editedMap := m;
      store.SaveContext();
      newMap := !newMap;
    }

    /** The `onAppear` handler (image decoding aside). A new editor without a
        map inserts one with the image and the title, but no id and no date,
        saves and clears `newMap`; an editor with a map takes the map's name
        as its title and loads its tokens. */
    method OnAppear()
      requires Valid()
      modifies this`editedMap, this`newMap, this`title, this`circles, store
      ensures Valid()
      ensures old(newMap && editedMap == null) ==>
                && editedMap != null && fresh(editedMap)
                && store.maps == old(store.maps) + {editedMap} && store.characters == old(store.characters)
                && editedMap.mapImage == Some(mapImage) && editedMap.mapName == Some(title)
                && editedMap.id == None && editedMap.date == None
                && !newMap && title == old(title) && circles == old(circles)
                && store.log == old(store.log) + [SaveContextCall] && !store.hasChanges
      ensures !old(newMap && editedMap == null) && old(editedMap) != null ==>
                && editedMap == old(editedMap) && newMap == old(newMap)
                && title == old(editedMap.Name())
                && ShowsExactly(editedMap)
                && unchanged(store)
      ensures !old(newMap) && old(editedMap) == null ==>
                unchanged(this) && unchanged(store)
    {
      if newMap && editedMap == null {
        CreateMap();
      } else if editedMap != null {
        title := editedMap.Name();
        LoadCharacters();
      }
    }

    /** `addNewCircle()`: a token of size 100 at `center` (the screen centre)
        with colour `color` (a random colour) is saved through the gateway
        under the map's id and appended only when the gateway returns the new
        character. The forced unwrap `map!.id!` is the precondition. */
    method AddNewCircle(center: Point, color: Rgba)
      requires store.Valid()
      requires editedMap != null && editedMap.id.Some?
      modifies this`circles, store, store.maps
      ensures store.Valid()
      ensures store.log == old(store.log) + [SaveCharacterCall(center.x, center.y, color, NewCircleSize, old(editedMap.id.value))]
      ensures !old(store.Resolves(editedMap.id.value)) ==>
                && circles == old(circles) && store.characters == old(store.characters)
                && store.hasChanges == old(store.hasChanges) && store.saveCount == old(store.saveCount)
      ensures old(store.Resolves(editedMap.id.value)) ==>
                && !store.hasChanges && store.saveCount == old(store.saveCount) + 1
                && |circles| == |old(circles)| + 1
                && circles[..|old(circles)|] == old(circles)
                && var d := circles[|old(circles)|];
                && d.position == center && d.color == color && d.size == NewCircleSize
                && d.character != null && fresh(d.character)
                && store.characters == old(store.characters) + {d.character}
                && Mirrors(d, d.character)
      ensures store.maps == old(store.maps)
      ensures forall m :: m in old(store.maps) ==> unchanged(m`date, m`mapImage, m`mapName, m`id)
      ensures old(Valid()) ==> Valid()
    {
      var newCircle := CircleData(center, color, NewCircleSize, null);
      var character := store.SaveCharacter(center.x, center.y, color.alpha, color.red,
                                           color.green, color.blue, newCircle.size, editedMap.id.value);
      if character != null {
        newCircle := newCircle.(character := character);
        circles := circles + [newCircle];
      }
    }

    /** The add button: adds a token only when unlocked. */
    method AddButton(center: Point, color: Rgba)
      requires Valid()
      requires !locked ==> editedMap != null && editedMap.id.Some?
      modifies this`circles, store, store.maps
      ensures Valid()
      ensures locked ==> circles == old(circles) && unchanged(store) && unchanged(store.maps)
      ensures !locked ==>
                && !store.hasChanges && store.saveCount == old(store.saveCount) + 1
                && |circles| == |old(circles)| + 1
                && circles[..|old(circles)|] == old(circles)
                && var d := circles[|old(circles)|];
                && d.position == center && d.color == color && d.size == NewCircleSize
                && d.character != null && fresh(d.character) && Mirrors(d, d.character)
                && store.characters == old(store.characters) + {d.character}
                && store.log == old(store.log) + [SaveCharacterCall(center.x, center.y, color, NewCircleSize, old(editedMap.id.value))]
      ensures store.maps == old(store.maps)
      ensures forall m :: m in old(store.maps) ==> unchanged(m`date, m`mapImage, m`mapName, m`id)
    {
      if !locked {
        assert store.Resolves(editedMap.id.value);
        AddNewCircle(center, color);
      }
    }

    /** A tap on token `index` selects it, unless the editor is locked. */
    method Tap(index: nat)
      requires Valid() && index < |circles|
      modifies this`selectedCircleIndex
      ensures Valid()
      ensures selectedCircleIndex == if locked then old(selectedCircleIndex) else Some(index)
    {
      if !locked {
        selectedCircleIndex := Some(index);
      }
    }

    /** `toggleLock()`. */
    method ToggleLock()
      modifies this`locked
      ensures locked == !old(locked)
    {
      locked := !locked;
    }

    /** The `onChange(of: title)` handler: renames the stored map unless this
        is a new map or there is no map. */
    method TitleChanged(newValue: string)
      requires Valid()
      modifies store`hasChanges, store`saveCount, store`log, editedMap
      ensures Valid()
      ensures !newMap && editedMap != null ==>
                && store.log == old(store.log) + [EditMapNameCall(editedMap, newValue)]
                && !store.hasChanges && store.saveCount == old(store.saveCount) + 1
                && editedMap.mapName == Some(newValue)
      ensures newMap || editedMap == null ==> unchanged(store) && (editedMap != null ==> unchanged(editedMap))
      ensures editedMap != null ==>
                unchanged(editedMap`date, editedMap`mapImage, editedMap`id, editedMap`characters)
    {
      if !newMap && editedMap != null {
        store.EditMapName(editedMap, newValue);
      }
    }

    /** The rename sheet's save action: sets the title; the change handler runs
        only when the title actually changes. */
    method RenameSaved(userInput: string)
      requires Valid()
      modifies this`title, store`hasChanges, store`saveCount, store`log, editedMap
      ensures Valid()
      ensures title == userInput
      ensures userInput != old(title) && !newMap && editedMap != null ==>
                && store.log == old(store.log) + [EditMapNameCall(editedMap, userInput)]
                && !store.hasChanges && store.saveCount == old(store.saveCount) + 1
                && editedMap.mapName == Some(userInput)
      ensures userInput == old(title) || newMap || editedMap == null ==>
                unchanged(store) && (editedMap != null ==> unchanged(editedMap))
      ensures editedMap != null ==>
                unchanged(editedMap`date, editedMap`mapImage, editedMap`id, editedMap`characters)
    {
      var changed := userInput != title;
      title := userInput;
      if changed {
        TitleChanged(userInput);
      }
    }

    /** A drag update on token `index` (only attached while unlocked): moves
        the token on screen and nothing else. */
    method DragChanged(index: nat, location: Point)
      requires Valid() && !locked && index < |circles|
      modifies this`circles
      ensures Valid()
      ensures circles == old(circles)[index := old(circles[index]).(position := location)]
    {
      circles := circles[index := circles[index].(position := location)];
    }

    /** The end of a drag on token `index`: one `updateCharacter` call with the
        token's current position and size, when it has a character. */
    method DragEnded(index: nat)
      requires Valid() && !locked && index < |circles|
      modifies store, store.characters
      ensures Valid()
      ensures store.maps == old(store.maps) && store.characters == old(store.characters)
      ensures !store.hasChanges && store.saveCount == old(store.saveCount) + 1
      ensures var d := circles[index];
              && d.character != null
              && store.log == old(store.log) + [UpdateCharacterCall(d.character, d.position, d.size)]
              && Mirrors(d, d.character)
      ensures forall c :: c in store.characters && c != circles[index].character ==> unchanged(c)
      ensures circles[index].character != null ==> unchanged(circles[index].character`characterName)
    {
      var circle := circles[index];
      if circle.character != null {
        store.UpdateCharacter(circle.character, circle.position, circle.size);
      }
    }

    /** The end of a pinch (only attached while unlocked with a selection):
        scales the selected token's size by `value`, then one `updateCharacter`
        call with its position and new size, when it has a character. */
    method PinchEnded(value: real)
      requires Valid()
      modifies this`circles, store, store.characters
      ensures Valid()
      ensures store.maps == old(store.maps) && store.characters == old(store.characters)
      ensures old(locked || selectedCircleIndex.None?) ==>
                circles == old(circles) && unchanged(store) && unchanged(store.characters)
      ensures old(!locked && selectedCircleIndex.Some?) ==>
                var i := selectedCircleIndex.value;
                && circles == old(circles)[i := Scaled(old(circles)[i], value)]
                && var d := circles[i];
                && d.character != null
                && store.log == old(store.log) + [UpdateCharacterCall(d.character, d.position, d.size)]
                && !store.hasChanges && store.saveCount == old(store.saveCount) + 1
                && Mirrors(d, d.character)
      ensures old(!locked && selectedCircleIndex.Some?) ==>
                var d := circles[selectedCircleIndex.value];
                && (forall c :: c in store.characters && c != d.character ==> unchanged(c))
                && (d.character != null ==> unchanged(d.character`characterName))
    {
      if !locked && selectedCircleIndex.Some? {
        var index := selectedCircleIndex.value;
        assert Backed(circles[index]);
        circles := circles[index := Scaled(circles[index], value)];
        var circle := circles[index];
        if circle.character != null {
          store.UpdateCharacter(circle.character, circle.position, circle.size);
        }
      }
    }
  }

  /** A token resized by a pinch: its size multiplied by `factor`. */
  function Scaled(d: CircleData, factor: real): (r: CircleData)
  {
    d.(size := d.size * factor)
  }

  /** Of two taps on an unlocked editor, the second one decides the selection. */
  method LastTapWins(editor: MapEditor, first: nat, second: nat)
    requires editor.Valid() && !editor.locked
    requires first < |editor.circles| && second < |editor.circles|
    modifies editor
    ensures editor.selectedCircleIndex == Some(second)
  {
    editor.Tap(first);
    editor.Tap(second);
  }

  /** The start of a session: import a map, open it in an unlocked editor
      and add a red token at (10, 10). */
  method OpenDungeon(image: Bytes, now: Date, freshId: Uuid) returns (editor: MapEditor)
    ensures fresh(editor) && fresh(editor.store) && editor.Valid() && !editor.locked
    ensures editor.editedMap != null
    ensures |editor.circles| == 1
    ensures var d := editor.circles[0];
            && d.character != null && fresh(d.character)
            && editor.store.characters == {d.character}
            && d.position == Point(10.0, 10.0) && d.size == NewCircleSize
            && d.color == Rgba(1.0, 0.0, 0.0, 1.0)
  {
    var store := new Persistence();
    var m := store.AddPhoto(image, "Dungeon", now, freshId);
    editor := new MapEditor(store, m, image, false, false);
    editor.OnAppear();
    assert store.OwnedBy(m) == {};
    editor.AddButton(Point(10.0, 10.0), Rgba(1.0, 0.0, 0.0, 1.0));
  }

  /** The middle of a session: drag the only token to (20, 30), select it and
      pinch it to 80% of its size. */
  method MoveAndShrink(editor: MapEditor)
    requires editor.Valid() && !editor.locked && |editor.circles| == 1
    modifies editor, editor.store, editor.store.characters
    ensures editor.Valid() && editor.editedMap == old(editor.editedMap)
    ensures editor.store.characters == old(editor.store.characters)
    ensures |editor.circles| == 1
    ensures var d := editor.circles[0];
            && d.character == old(editor.circles[0].character) && d.character != null
            && Mirrors(d, d.character)
            && d.position == Point(20.0, 30.0) && d.size == old(editor.circles[0].size) * 0.8
            && d.color == old(editor.circles[0].color)
  {
    editor.DragChanged(0, Point(20.0, 30.0));
    editor.DragEnded(0);
    editor.Tap(0);
    editor.PinchEnded(0.8);
  }

  /** A whole session: import a map, add a red token, drag it to (20, 30),
      select it and pinch it to 80% of its size, then reload the map's
      characters from the store. */
  method DungeonSession(image: Bytes, now: Date, freshId: Uuid) returns (reloaded: seq<Characters>)
    ensures |reloaded| == 1
    ensures reloaded[0].characterLocationX == 20.0 && reloaded[0].characterLocationY == 30.0
    ensures reloaded[0].characterSize == 80.0
    ensures ColorOf(reloaded[0]) == Rgba(1.0, 0.0, 0.0, 1.0)
  {
    var editor := OpenDungeon(image, now, freshId);
    ghost var token := editor.circles[0].character;
    MoveAndShrink(editor);
    assert editor.Backed(editor.circles[0]);
    reloaded := editor.store.FetchCharacters(editor.editedMap);
    assert editor.store.OwnedBy(editor.editedMap) == {token};
    assert reloaded[0] == token;
  }
}
