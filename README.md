# Legend Logger record store and map editor, in Dafny

Legend Logger is an iPhone app for tabletop role-playing. A player photographs a
map, stores it with a name, and places coloured circular tokens on it. Each token
is backed by a stored character record. This project models the three parts of
the app that hold logic worth verifying:

- **The persistence gateway** (`Store.Persistence`). Core Data is replaced by an
  explicit in-memory store: a set of map records, a set of character records, and
  the context's dirty flag (`hasChanges`). A commit counter (`saveCount`) stands
  for `context.save()`. A ghost log records every gateway call that can change the
  store, so contracts can say that an event made exactly one call, and which one.
- **The entity records** (`Entities.Maps`, `Entities.Characters`). These are
  classes, because the gateway and the editor update their fields in place and the
  editor's tokens refer to them. The read accessors substitute defaults for absent
  attributes. The to-many relationship accessors keep the inverse `maps` owner
  reference, as Core Data does.
- **The editor session** (`Editor.MapEditor`). This is the token list `circles`,
  the selection, the lock, the title and the new-map flag. It has one method per
  event handler: add button, tap, drag change and end, pinch end, lock toggle,
  rename, and appearance. The session invariant `MapEditor.Valid` says every token
  is backed by its own stored character of the edited map. So a token is appended
  only when the store accepted its character, and the list and the store never
  diverge.

Coordinates, sizes and colour channels are exact `real`s. Image data is
`seq<bv8>`. UUIDs and dates are abstract types that are only compared. The clock
reading, the fresh UUID, the screen centre and the random colour are passed in as
parameters.

Files: `basics.dfy` (shared value types and the set-to-array conversion),
`entities.dfy`, `store.dfy`, `editor.dfy`.

## Model

| member | source | states |
|---|---|---|
| Basics.SetToSeq | SwiftUILegandLogger/Maps+CoreDataProperties.swift:37-41 | Turning a set into an array yields every member exactly once and nothing else, so the length equals the set's size. |
| Entities.Characters.constructor | SwiftUILegandLogger/Characters+CoreDataProperties.swift:19-27 | A new character has readable zero numeric attributes, no name and no owner (at most one owner map). |
| Entities.Characters.ColorR | SwiftUILegandLogger/Characters+CoreDataProperties.swift:29-31 | `colorR` returns the stored red channel unchanged. |
| Entities.Characters.LocationX | SwiftUILegandLogger/Characters+CoreDataProperties.swift:33-35 | `locationX` returns the stored x coordinate unchanged. |
| Entities.Characters.Name | SwiftUILegandLogger/Characters+CoreDataProperties.swift:37-39 | `name` is the stored name when present and "Billy Bob" otherwise. |
| Entities.Characters.Size | SwiftUILegandLogger/Characters+CoreDataProperties.swift:41-43 | `size` returns the stored size unchanged. |
| Entities.Characters.LocationY | SwiftUILegandLogger/Characters+CoreDataProperties.swift:45-47 | `locationY` returns the stored y coordinate unchanged. |
| Entities.Characters.ColorG | SwiftUILegandLogger/Characters+CoreDataProperties.swift:49-51 | `colorG` returns the stored green channel unchanged. |
| Entities.Characters.ColorB | SwiftUILegandLogger/Characters+CoreDataProperties.swift:53-55 | `colorB` returns the stored blue channel unchanged. |
| Entities.Characters.ColorA | SwiftUILegandLogger/Characters+CoreDataProperties.swift:57-59 | `colorA` returns the stored alpha channel unchanged. |
| Entities.Maps.constructor | SwiftUILegandLogger/Maps+CoreDataProperties.swift:19-23 | A new map has every optional attribute unset, including the relationship. |
| Entities.Maps.TheDate | SwiftUILegandLogger/Maps+CoreDataProperties.swift:25-27 | `theDate` is the stored date when present and the current clock reading otherwise. |
| Entities.Maps.Image | SwiftUILegandLogger/Maps+CoreDataProperties.swift:29-31 | `image` is the stored bytes when present and the empty payload otherwise. |
| Entities.Maps.Name | SwiftUILegandLogger/Maps+CoreDataProperties.swift:33-35 | `name` is the stored name when present and "My Map" otherwise. |
| Entities.Maps.Members | SwiftUILegandLogger/Maps+CoreDataProperties.swift:37-38 | The relationship read as a set is the stored set, and empty when the relationship is nil. |
| Entities.Maps.CharacterArray | SwiftUILegandLogger/Maps+CoreDataProperties.swift:37-41 | `characterArray` contains exactly the members of the relationship, without duplicates, and is empty when the relationship is nil. |
| Entities.Maps.AddToCharacters | SwiftUILegandLogger/Maps+CoreDataProperties.swift:47-48 | `c` becomes a member and no other member changes. `c`'s owner becomes this map, and a previous owner loses `c` and keeps its date, image, name and id. The map's attributes and `c`'s attributes are unchanged. |
| Entities.Maps.RemoveFromCharacters | SwiftUILegandLogger/Maps+CoreDataProperties.swift:50-51 | `c` stops being a member and no other member changes. `c`'s owner is cleared only when it was this map. |
| Entities.AddToCharactersIdempotent | SwiftUILegandLogger/Maps+CoreDataProperties.swift:47-48 | Adding the same character twice gives the same membership as adding it once. |
| Store.Persistence.constructor | SwiftUILegandLogger/Persistence.swift:10-23 | The shared store starts consistent, empty and with nothing pending. |
| Store.Persistence.Commit | SwiftUILegandLogger/Persistence.swift:27-34 | The context commits exactly when it has pending changes. Afterwards nothing is pending. |
| Store.Persistence.SaveContext | SwiftUILegandLogger/Persistence.swift:25-35 | `saveContext` commits only when changes are pending. With none pending it changes nothing but the call log. |
| Store.Persistence.InsertMap | SwiftUILegandLogger/MapEditor.swift:93 | `Maps(context:)` (here, and in `addPhoto` at Persistence.swift line 39) registers a blank map, marks the context dirty and keeps the store consistent. |
| Store.Persistence.AddPhoto | SwiftUILegandLogger/Persistence.swift:37-48 | The returned map is new in the store and carries the image, the clock reading, the name and the generated id; the id's uniqueness is assumed, see below. The characters are unchanged, the context is committed, and exactly one call is logged. |
| Store.Persistence.FetchMaps | SwiftUILegandLogger/Persistence.swift:51-63 | The result lists every stored map exactly once and nothing else. |
| Store.Persistence.FetchMap | SwiftUILegandLogger/Persistence.swift:65-77 | The result is a stored map with the given id, and it is nil exactly when no stored map has that id. |
| Store.Persistence.DeleteMap | SwiftUILegandLogger/Persistence.swift:80-84 | The map is no longer stored, and neither are the characters it owned (the cascade assumption below). The store stays consistent and the deletion is committed. |
| Store.Persistence.EditMapName | SwiftUILegandLogger/Persistence.swift:86-104 | A map the context resolves gets the new name and a commit. A map it does not resolve changes nothing. Only that map's name field can change. |
| Store.Persistence.CreateCharacter | SwiftUILegandLogger/Persistence.swift:108-117 | The new character stores the given position, colour and size, has no name, is owned by the map, and is the only addition to that map's set and to the table. |
| Store.Persistence.SaveCharacter | SwiftUILegandLogger/Persistence.swift:106-120 | When no stored map has the id, it returns nil and changes no map, character or commit state. Otherwise it returns one new character with the given attributes and no name, owned by the map with that id. That map's set grows by exactly this character and every other map is unchanged. |
| Store.Persistence.FetchCharacters | SwiftUILegandLogger/Persistence.swift:122-133 | The result contains exactly the stored characters owned by the map, each once. Its length equals the number of such characters, so it is empty when there are none. |
| Store.Persistence.UpdateCharacter | SwiftUILegandLogger/Persistence.swift:135-143 | Only the character's x, y and size are set. Its colour channels, name and owner are unchanged, no other record changes, and the change is committed. |
| Store.RenameTwice | SwiftUILegandLogger/Persistence.swift:86-104 | Of two successive renames of a stored map, the second name remains and is what `name` reads. |
| Store.SaveThenRead | SwiftUILegandLogger/Persistence.swift:106-120 | Saving a character under a stored map's id always succeeds. The getters read back exactly the saved position, size and colour channels, and the "Billy Bob" placeholder name. |
| Store.DeleteThenFetch | SwiftUILegandLogger/Persistence.swift:80-84 | After a delete, fetching the maps does not return the deleted map, and fetching its characters returns nothing. |
| Store.AddThenFetch | SwiftUILegandLogger/Persistence.swift:37-77 | Fetching by the id of a map just added finds that map, with the image and name it was given, and `theDate` reads back the clock reading taken when it was added. |
| Editor.ColorOf | SwiftUILegandLogger/MapEditor.swift:159 | A token colour built from a character has exactly that character's four colour channels. |
| Editor.Hydrate | SwiftUILegandLogger/MapEditor.swift:157-161 | One token per fetched character, in fetch order, each with that character's position, size, colour and back-reference. |
| Editor.MapEditor.constructor | SwiftUILegandLogger/MapEditor.swift:34-40 | A new editor keeps the given map, image, lock and new-map flag. It starts with no tokens, no selection and the "My Map" title, and satisfies the session invariant. |
| Editor.MapEditor.LoadCharacters | SwiftUILegandLogger/MapEditor.swift:155-163 | The tokens become exactly the stored characters of the map, one each, each showing what is stored. The session invariant holds, and the selection stays in range. |
| Editor.MapEditor.CreateMap | SwiftUILegandLogger/MapEditor.swift:92-97 | The new-map path inserts a map with the image and title but no id and no date, saves once and clears `newMap`. |
| Editor.MapEditor.OnAppear | SwiftUILegandLogger/MapEditor.swift:90-102 | A new editor without a map creates one. An editor with a map takes the map's name as its title and shows exactly its stored characters. Otherwise nothing changes. |
| Editor.MapEditor.AddNewCircle | SwiftUILegandLogger/MapEditor.swift:108-128 | Exactly one `saveCharacter` call is made, under the map's id, with the token's position, colour and size 100. A token is appended, backed by the returned character, and the save is committed once, exactly when the id resolves. Otherwise the tokens, the character table and the pending-changes state are unchanged. The set of stored maps is the same, and every stored map keeps its date, image, name and id. The session invariant is kept. |
| Editor.MapEditor.AddButton | SwiftUILegandLogger/MapEditor.swift:69-72 | When locked, nothing changes. When unlocked, exactly one new token of size 100 is appended, backed by a new stored character that mirrors it, and the save is committed once. The set of stored maps is the same, and every stored map keeps its date, image, name and id. |
| Editor.MapEditor.Tap | SwiftUILegandLogger/MapEditor.swift:50-54 | A tap selects the tapped token only when unlocked, and otherwise leaves the selection alone. |
| Editor.MapEditor.ToggleLock | SwiftUILegandLogger/MapEditor.swift:134-136 | The lock flips. |
| Editor.MapEditor.TitleChanged | SwiftUILegandLogger/MapEditor.swift:64-68 | `editMapName` runs once, renaming the map and committing once, exactly when `newMap` is false and there is a map. Otherwise the store and the map are unchanged. The map's date, image, id and characters never change. |
| Editor.MapEditor.RenameSaved | SwiftUILegandLogger/MapEditor.swift:84-88 | Saving the rename sheet sets the title. The stored map is renamed, with one commit, only when the title actually changed, the map is not new and a map exists. The map's date, image, id and characters never change. |
| Editor.MapEditor.DragChanged | SwiftUILegandLogger/MapEditor.swift:190-192 | During a drag only the dragged token's on-screen position changes. Nothing is stored. |
| Editor.MapEditor.DragEnded | SwiftUILegandLogger/MapEditor.swift:193-200 | A drag end makes exactly one `updateCharacter` call, for the dragged token's character, with its current position and size, and commits once. Afterwards the character mirrors the token and keeps its name, and every other stored character is unchanged. |
| Editor.MapEditor.PinchEnded | SwiftUILegandLogger/MapEditor.swift:225-243 | Without a selection, or when locked, nothing changes. Otherwise only the selected token's size is multiplied by the factor, then exactly one `updateCharacter` call stores that token's position and new size and commits once. That character keeps its name, and every other stored character is unchanged. |
| Editor.LastTapWins | SwiftUILegandLogger/MapEditor.swift:50-54 | Of two taps on an unlocked editor, the second decides the selection. |
| Editor.OpenDungeon | SwiftUILegandLogger/MapEditor.swift:69-128 | Importing a map, opening it and pressing add once gives an editor with exactly one token, backed by the store's only character. |
| Editor.MoveAndShrink | SwiftUILegandLogger/MapEditor.swift:190-243 | Dragging the only token to (20, 30), selecting it and pinching it by 0.8 moves and shrinks it on screen and in its stored character, keeping its colour and its character. |
| Editor.DungeonSession | SwiftUILegandLogger/MapEditor.swift:190-243 | After adding a red token, dragging it to (20, 30) and pinching it by 0.8, reloading the map gives exactly one character at (20, 30), with size 80 and colour (1, 0, 0, 1). |

## Left out

- Loading the persistent store, and its `fatalError` on failure (Persistence.swift lines 14-23): Core Data machinery.
- The commit failure path (lines 31-32): the model's commit always succeeds.
- Fault refreshing with `isFault` and `refresh` (lines 92-94): a Core Data cache detail with no observable effect in the model.
- The failure branches of `fetchMaps` (its `fatalError`, Persistence.swift lines 58-61), `fetchMap(by:)` and `fetchCharacters(for:)` (which log and return nil or empty): fetching from the in-memory store cannot fail.
- Store.Persistence.AddPhoto: `UUID()` is assumed to return an id no stored map carries. The model takes the new id as a parameter, requires it to be unused, and the id uniqueness in `Persistence.Valid` rests on that assumption.
- `editMapName` takes a managed object id. The model passes the map itself, and "resolvable" means "still stored".
- Store.Persistence.DeleteMap: the source only deletes the map record (Persistence.swift line 82). The delete rule for its characters lives in the Core Data model file, which is not part of this model. Cascade deletion of the owned characters is an assumption.
- Store.Persistence.SaveCharacter: the `context` parameter is dropped, because every caller passes the shared view context.
- The ghost call log and `saveCount` are modelling devices. They are not state in the app.
- The camera and photo-library pipeline (DataModel.swift): asynchronous streams and foreign APIs.
- The pure UI files (MapListView.swift, RenameAlertView.swift, ViewFinderView.swift, SwiftUILegandLoggerApp.swift), and the `onDisappear` refresh flag: layout and navigation.
- `CircleBrain`, and the `Color.uiColor` and `UIColor.components` colour conversions: thin UIKit wrappers. The model takes a colour's components as given.
- PNG encoding and decoding, `loadImage`, and `UIImage(data:)`: the image is modelled as already-encoded bytes.
- `UIScreen` bounds and `generateRandomColor` (MapEditor.swift lines 130-132): the screen centre and the random colour are parameters of `AddNewCircle` and `AddButton`.
- A new map created by `onAppear` (MapEditor.swift lines 92-97) has no id, so an add would hit the forced unwrap `map!.id!` (line 122). This is why `AddButton` requires an id when unlocked. The path cannot be reached: picking a photo sets the selected map together with the image (MapListView.swift lines 128-131), so the editor's new-map branch is never taken (lines 147-148).
- `saveMapName` (MapEditor.swift lines 138-141): no code path calls it.
- The bulk `NSSet` overloads of `addToCharacters` and `removeFromCharacters` (Maps+CoreDataProperties.swift lines 53-57): no code path calls them.
- Float and CGFloat rounding: numbers are exact reals.
- All `print` logging.
- `CircleData`'s SwiftUI identity (`id = UUID()`): it only serves list diffing.
- The unused `id` initialiser parameter of `MapEditor`, the `needsRefresh` binding, and the `pinchScale` gesture state: none affects the modelled state.
- Editor.MapEditor.OnAppear: the model does not fire the title `onChange` handler when `onAppear` assigns the title. SwiftUI's timing for that callback is framework behaviour.
- Editor.DungeonSession: the add button always creates a size-100 token, so the scenario places it at (10, 10) as the screen centre and pinches it by 0.8 to reach size 80.
- Editor.MapEditor.AddNewCircle: the session invariant is stated as preserved (`old(Valid()) ==> Valid()`), and only the store's consistency is required, because the source's forced unwrap demands no more.
