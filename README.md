# Colour simulator: zone editor and project state, in Dafny

This project models the state logic of the colour simulator, an Angular
application where a user picks a surface and colours its zones. The model
covers four parts:

- the custom-surface editor (`SurfaceEditorComponent`). It keeps a zone list
  that it derives from the polygons on a drawing canvas, and it assigns zone
  ids `zone-N` from a counter. It reconciles the canvas with the imported
  surface (an image and its stored zones), whether that surface arrives
  before or after the canvas exists. It tells the application about zone
  changes, except after a restore;
- the state store (`ProjectStateService`). It holds the current surface, the
  colour chosen for each zone, the favourite colours, the selectable surfaces
  and the custom-surface data;
- the palette panel's choice of the active zone, and its forwarding of
  choices to the store;
- the surface viewer, which maps each zone's styling variable to a colour.

Files and modules:

- `option.dfy` (`Wrappers`): `Option`, the `??` operator, and JavaScript truthiness of a nullable string.
- `text.dfy` (`Text`): decimal rendering of counters (template literals) and the parse of a trailing digit run (`/(\d+)$/` then `Number`).
- `catalogue.dfy` (`Catalogue`): colour and surface records, the first predefined surface and the first catalogue colour.
- `project_state.dfy` (`ProjectState`): the custom-surface records, the pure palette and favourites functions, and the class `ProjectStateService`.
- `surface_editor_model.dfy` (`EditorModel`): canvas objects, the zone list read back from them, the id counter, and the rebuilding of polygons from stored zones.
- `surface_editor.dfy` (`SurfaceEditor`): the loops of the editor and the class `SurfaceEditorComponent`.
- `palette_panel.dfy` (`PalettePanel`) and `surface_viewer.dfy` (`SurfaceViewer`): the two view components.

How the environment is represented:

- The canvas is a `seq<CanvasObject>`. Each object has a kind (polygon or other), an optional zone id and label, local points, and its style and transform attributes.
- The drawing library's geometry is a function `absolute` that the editor receives at construction. It maps local points and attributes to rounded absolute points.
- Zone lists sent to the `zonesChange` listener are kept in a ghost log `emitted`. The JSON deep copy of each snapshot is the identity on values.
- Image decoding is asynchronous. `SetCanvasBackground` only records a decode in flight, and `OnBackgroundLoaded(k, …)` is its completion. Completions may run in any order, so a stale decode can land after a newer one, as in the application.
- Canvas events (selection, selection cleared, object moved or scaled, vertex dragged) are methods that the environment calls.
- The drawing library raises a selection event when a polygon is made active. It raises a selection-cleared event when the active polygon is discarded or removed from the canvas. The active polygon is the one tagged with the selected zone id. `AddPolygonZone`, `SelectZone`, `RemoveSelectedZone` and `RestorePolygons` model those events inline.
- Angular's change hooks take the new input values; `Some` marks an input that changed.

Behaviour of the application that the model keeps:

- The editor has no click-by-click drawing mode. Adding a zone inserts a fixed rectangle at (100,100)–(260,200).
- Ids can be reused. The counter is recomputed from the largest numeric suffix on every read-back. After the zone with the largest suffix is deleted, the next zone gets that id again (`EditorModel.DeletedIdIsReused`).
- Clearing the canvas removes every object, not only polygons. It leaves the counter as it was.
- A new zone is selected through the drawing library's selection event. The editor does not set the selection itself.

## Model

| member | source | states |
|---|---|---|
| `Text.SuffixIndex` | colour-simulator/src/app/components/surface-editor/surface-editor.component.ts:408-409 | an id has a numeric suffix exactly when it is non-empty and ends in a digit |
| `Text.DecimalRoundTrip` | colour-simulator/src/app/components/surface-editor/surface-editor.component.ts:102 | parsing the decimal rendering of a counter gives the counter back |
| `Text.NatToStringInjective` | colour-simulator/src/app/components/surface-editor/surface-editor.component.ts:102 | distinct counters render as distinct strings |
| `Text.TrailingDigitsOfRun` | colour-simulator/src/app/components/surface-editor/surface-editor.component.ts:408 | the trailing digit run of a prefix ending in a non-digit followed by digits is exactly those digits |
| `Text.SuffixIndexOfRendered` | colour-simulator/src/app/components/surface-editor/surface-editor.component.ts:408-409 | the suffix parsed from `prefix + n` is `n` when the prefix ends in a non-digit |
| `ProjectState.BuildInitialPalette` | colour-simulator/src/app/services/project-state.service.ts:32-37 | the initial palette has exactly the surface's zone ids as keys, each mapped to the default colour |
| `ProjectState.WithDefaults` | colour-simulator/src/app/services/project-state.service.ts:76 | merged colours have the old keys plus the surface's zone ids; existing entries win; only new ids get the default |
| `ProjectState.FindSurface` | colour-simulator/src/app/services/project-state.service.ts:68 | finds the first surface with the id, or none exactly when no surface has it |
| `ProjectState.ZoneDefinitions` | colour-simulator/src/app/services/project-state.service.ts:146-152 | one zone definition per drawn zone, in order, with the zone's id and label, the description `Zone personnalisée i+1`, and `--zone-main`, `--zone-secondary`, `--zone-details` for the first three positions and `--zone-custom-(i+1)` after them |
| `ProjectState.DefinitionIds` | colour-simulator/src/app/services/project-state.service.ts:147-152 | the definitions built from the drawn zones carry exactly the drawn zone ids |
| `ProjectState.CssVariableFor` | colour-simulator/src/app/services/project-state.service.ts:146-151 | every styling variable starts with `--zone-`, and its eighth character is `c` exactly for the numbered variables from the fourth position on |
| `ProjectState.CssVariableInjective` | colour-simulator/src/app/services/project-state.service.ts:151 | distinct positions get distinct styling variables |
| `ProjectState.PreservedColours` | colour-simulator/src/app/services/project-state.service.ts:159-165 | keeps exactly the chosen colours of the given zone ids |
| `ProjectState.CustomZoneColours` | colour-simulator/src/app/services/project-state.service.ts:158-166 | the new colour map's keys are exactly the new zone ids; previous colours are kept, others get the default, old keys are dropped |
| `ProjectState.CustomSurfaceFrom` | colour-simulator/src/app/services/project-state.service.ts:108-116 | the custom surface has id `custom-surface`, category decor and the base surface's zones |
| `ProjectState.Without` | colour-simulator/src/app/services/project-state.service.ts:87-88 | removes exactly the given id, keeps the other ids in order, and keeps a duplicate-free list duplicate-free |
| `ProjectState.Toggled` | colour-simulator/src/app/services/project-state.service.ts:85-92 | toggling flips the membership of the id and keeps the membership of every other id |
| `ProjectState.Dedup` | colour-simulator/src/app/services/project-state.service.ts:86 | converting a list to a set and back keeps the same members and has no duplicates |
| `ProjectState.DedupOfDistinct` | colour-simulator/src/app/services/project-state.service.ts:86-92 | a duplicate-free list survives the set round trip unchanged |
| `ProjectState.ToggleFlipsMembership` | colour-simulator/src/app/services/project-state.service.ts:85-93 | toggling flips the membership of that id only and never creates duplicates |
| `ProjectState.ToggleKeepsOrder` | colour-simulator/src/app/services/project-state.service.ts:85-93 | the other favourites keep their order; an added id goes to the end |
| `ProjectState.ToggleTwiceRestores` | colour-simulator/src/app/services/project-state.service.ts:85-93 | toggling an absent id twice restores the list |
| `ProjectState.OnlyCustomSelectable` | colour-simulator/src/app/services/project-state.service.ts:118 | with only the custom surface listed, selection succeeds exactly for `custom-surface` |
| `ProjectState.ProjectStateService.constructor` | colour-simulator/src/app/services/project-state.service.ts:41-47 | starts on the first surface with its initial palette, no favourites, all surfaces and no custom data |
| `ProjectState.ProjectStateService.SelectSurface` | colour-simulator/src/app/services/project-state.service.ts:67-78 | an unknown id changes nothing; a known one becomes current, custom data is dropped unless it is `custom-surface`, and colours are merged with existing entries winning |
| `ProjectState.ProjectStateService.ApplyColour` | colour-simulator/src/app/services/project-state.service.ts:80-83 | sets the zone's colour and changes no other entry or field |
| `ProjectState.ProjectStateService.ToggleFavourite` | colour-simulator/src/app/services/project-state.service.ts:85-93 | the favourites become the toggled list; nothing else changes |
| `ProjectState.ProjectStateService.IsFavourite` | colour-simulator/src/app/services/project-state.service.ts:95-97 | answers membership in the favourites |
| `ProjectState.ProjectStateService.UseCustomSurface` | colour-simulator/src/app/services/project-state.service.ts:103-127 | an empty image is a no-op; otherwise the custom surface becomes the only and current surface, colours merge with existing entries winning, the custom data has empty zones, and only `custom-surface` can be selected afterwards |
| `ProjectState.ProjectStateService.UpdateCustomSurfaceZones` | colour-simulator/src/app/services/project-state.service.ts:129-167 | a no-op without custom data; otherwise the data's zones are replaced, and only on the custom surface are the zone definitions and colours rebuilt |
| `EditorModel.ZoneIdSuffix` | colour-simulator/src/app/components/surface-editor/surface-editor.component.ts:102 | the id `zone-N` has numeric suffix N |
| `EditorModel.NewPolygonTagged` | colour-simulator/src/app/components/surface-editor/surface-editor.component.ts:102-126 | the new object is a tagged polygon on the fixed rectangle whose id has numeric suffix N |
| `EditorModel.Polygons` | colour-simulator/src/app/components/surface-editor/surface-editor.component.ts:181 | the polygon filter keeps only canvas polygons |
| `EditorModel.NonPolygons` | colour-simulator/src/app/components/surface-editor/surface-editor.component.ts:350-353 | what survives removing the polygons: objects of the canvas, none of them a polygon |
| `EditorModel.PolygonsPartition` | colour-simulator/src/app/components/surface-editor/surface-editor.component.ts:181 | the polygons and the other objects together are exactly the canvas objects, counted with multiplicity |
| `EditorModel.PolygonsMembers` | colour-simulator/src/app/components/surface-editor/surface-editor.component.ts:181 | an object is among the polygons exactly when it is a canvas polygon, and among the others exactly when it is a canvas object of another kind |
| `EditorModel.ZoneOfRecords` | colour-simulator/src/app/components/surface-editor/surface-editor.component.ts:182-225 | a zone records the id and label its polygon carries, its absolute points, and a snapshot of its local points and every attribute |
| `EditorModel.ZonesOfLength` | colour-simulator/src/app/components/surface-editor/surface-editor.component.ts:181-225 | the read-back has exactly one zone per polygon |
| `EditorModel.ZonesOfAppend` | colour-simulator/src/app/components/surface-editor/surface-editor.component.ts:181-182 | reading back a concatenation reads back each part |
| `EditorModel.ZonesOfPolygons` | colour-simulator/src/app/components/surface-editor/surface-editor.component.ts:181-225 | the zone list has one entry per polygon, in canvas order, each read from that polygon; other objects are ignored |
| `EditorModel.FillOne` | colour-simulator/src/app/components/surface-editor/surface-editor.component.ts:183-186 | a polygon keeps an id or label it has and receives the missing ones from the counter; other objects are untouched |
| `EditorModel.Fill` | colour-simulator/src/app/components/surface-editor/surface-editor.component.ts:182-186 | after the read-back every polygon has an id and a label, and the counter never decreases |
| `EditorModel.FillAt` | colour-simulator/src/app/components/surface-editor/surface-editor.component.ts:182-186 | each object is filled with the counter reached after the objects before it |
| `EditorModel.FillMonotone` | colour-simulator/src/app/components/surface-editor/surface-editor.component.ts:183 | the counter only grows along the list |
| `EditorModel.FillSpec` | colour-simulator/src/app/components/surface-editor/surface-editor.component.ts:182-186 | the read-back keeps kinds, points, attributes, existing ids and labels, and gives each id-less polygon an id from the consumed counter range |
| `EditorModel.FillTagged` | colour-simulator/src/app/components/surface-editor/surface-editor.component.ts:183-186 | when every polygon is already tagged, the read-back changes nothing |
| `EditorModel.SuffixIndices` | colour-simulator/src/app/components/surface-editor/surface-editor.component.ts:406-411 | there is at most one numeric suffix per id |
| `EditorModel.SuffixIndicesMembers` | colour-simulator/src/app/components/surface-editor/surface-editor.component.ts:406-411 | a number is among the suffixes exactly when some id ends in it |
| `EditorModel.SuffixInIndices` | colour-simulator/src/app/components/surface-editor/surface-editor.component.ts:406-411 | the numeric suffix of any id is among the collected suffixes |
| `EditorModel.MaxOf` | colour-simulator/src/app/components/surface-editor/surface-editor.component.ts:413 | the maximum is an element and bounds every element |
| `EditorModel.RecomputedIndex` | colour-simulator/src/app/components/surface-editor/surface-editor.component.ts:405-417 | an empty list resets the counter to 1; the counter never drops below 1 |
| `EditorModel.RecomputedIndexAbove` | colour-simulator/src/app/components/surface-editor/surface-editor.component.ts:412-413 | the recomputed counter exceeds every numeric suffix |
| `EditorModel.RecomputedIndexCases` | colour-simulator/src/app/components/surface-editor/surface-editor.component.ts:412-416 | with a numeric suffix the counter is one past a present suffix; with ids but no suffix it is unchanged |
| `EditorModel.RecomputedIndexIdempotent` | colour-simulator/src/app/components/surface-editor/surface-editor.component.ts:392-393 | recomputing twice from the same ids changes nothing |
| `EditorModel.AppendFreshId` | colour-simulator/src/app/components/surface-editor/surface-editor.component.ts:102 | an id made from a counter above every suffix is fresh, and the next counter is one past it |
| `EditorModel.AddedTagged` | colour-simulator/src/app/components/surface-editor/surface-editor.component.ts:102-126 | adding the new rectangle, which carries an id and a label, keeps every polygon tagged |
| `EditorModel.AddedZone` | colour-simulator/src/app/components/surface-editor/surface-editor.component.ts:97-133 | after the rectangle for counter N is added, the read-back is the old zone list plus the new zone, `zone-N` was not in use before, and the recomputed counter is N+1 |
| `EditorModel.RemovedKeepsTagged` | colour-simulator/src/app/components/surface-editor/surface-editor.component.ts:140-146 | removing one object keeps every remaining polygon tagged |
| `EditorModel.DeletedIdIsReused` | colour-simulator/src/app/components/surface-editor/surface-editor.component.ts:412-413 | with `zone-n` and `zone-(n+1)` the counter is n+2; once `zone-(n+1)` is deleted it falls back to n+1, so that id is handed out again |
| `EditorModel.RecomputedFromTwo` | colour-simulator/src/app/components/surface-editor/surface-editor.component.ts:406-413 | from two ids with increasing suffixes the counter is one past the larger; from the first alone, one past the smaller |
| `EditorModel.SelectionFrom` | colour-simulator/src/app/components/surface-editor/surface-editor.component.ts:239-246 | the first selected object's (truthy) zone id, and none exactly when there is no selection or it has no id |
| `EditorModel.FindByZoneId` | colour-simulator/src/app/components/surface-editor/surface-editor.component.ts:140 | the first object with the id, or none exactly when no object has it |
| `EditorModel.Pruned` | colour-simulator/src/app/components/surface-editor/surface-editor.component.ts:228-230 | a kept selection names a zone; a truthy selection naming a zone is kept; anything else is dropped to none |
| `EditorModel.Deselected` | colour-simulator/src/app/components/surface-editor/surface-editor.component.ts:350-353 | removing the polygon that carries the selected id clears the selection, through the selection-cleared handler at line 54; removing only other objects keeps it |
| `EditorModel.RestoredAttributes` | colour-simulator/src/app/components/surface-editor/surface-editor.component.ts:356-377 | each attribute the snapshot records is used, each one it lacks takes its default |
| `EditorModel.RestoredObject` | colour-simulator/src/app/components/surface-editor/surface-editor.component.ts:357-379 | a restored zone becomes a polygon that carries its id and label |
| `EditorModel.RestoredAll` | colour-simulator/src/app/components/surface-editor/surface-editor.component.ts:355-388 | one restored polygon per stored zone, in order |
| `EditorModel.ZonesOfNoPolygons` | colour-simulator/src/app/components/surface-editor/surface-editor.component.ts:181 | objects that are not polygons yield no zones |
| `EditorModel.ZonesOfRestored` | colour-simulator/src/app/components/surface-editor/surface-editor.component.ts:355-393 | reading back restored polygons gives the stored ids and labels |
| `EditorModel.IdsAppend` | colour-simulator/src/app/components/surface-editor/surface-editor.component.ts:228 | the ids and labels of a concatenation are those of its parts |
| `EditorModel.RestoredZoneIds` | colour-simulator/src/app/components/surface-editor/surface-editor.component.ts:349-393 | after a restore every polygon is tagged and the read-back yields the stored ids and labels, in order |
| `EditorModel.RestoreRoundTrip` | colour-simulator/src/app/components/surface-editor/surface-editor.component.ts:355-379 | restoring the zone a polygon produced rebuilds that polygon |
| `EditorModel.ZoneListRoundTrip` | colour-simulator/src/app/components/surface-editor/surface-editor.component.ts:355-393 | restoring an emitted zone list and reading it back yields the same list |
| `EditorModel.ZonesOfUpdate` | colour-simulator/src/app/components/surface-editor/surface-editor.component.ts:155-159 | replacing one object keeps the ids, and changes only that polygon's zone |
| `EditorModel.ZonePosition` | colour-simulator/src/app/components/surface-editor/surface-editor.component.ts:181-182 | a polygon's zone sits in the zone list at its position among the polygons |
| `EditorModel.SpliceIds` | colour-simulator/src/app/components/surface-editor/surface-editor.component.ts:228 | splicing in zones with the same ids keeps the id list |
| `EditorModel.ZonesOfRemove` | colour-simulator/src/app/components/surface-editor/surface-editor.component.ts:140-146 | removing one object removes its zone, if it is a polygon, and keeps all others in order |
| `SurfaceEditor.InitialBackground` | colour-simulator/src/app/components/surface-editor/surface-editor.component.ts:62-67 | a truthy pending background wins over the surface's image; otherwise none |
| `SurfaceEditor.InitialZones` | colour-simulator/src/app/components/surface-editor/surface-editor.component.ts:69-74 | pending zones (even empty) win; the surface's zones are used only when non-empty |
| `SurfaceEditor.BackgroundNameOf` | colour-simulator/src/app/components/surface-editor/surface-editor.component.ts:282 | the shown name is the surface's image name when there is one, and the empty string otherwise |
| `SurfaceEditor.ReadBack` | colour-simulator/src/app/components/surface-editor/surface-editor.component.ts:181-225 | the read-back loop fills ids and labels as `Fill` does and collects the zone of every polygon |
| `SurfaceEditor.FillObject` | colour-simulator/src/app/components/surface-editor/surface-editor.component.ts:183-186 | the loop body gives a polygon a missing id `zone-N` and label `Zone N`, exactly as `FillOne` does |
| `SurfaceEditor.ReadBackStep` | colour-simulator/src/app/components/surface-editor/surface-editor.component.ts:182-186 | one more loop step extends the filled objects by the filled object, and the zone list by its zone when it is a polygon |
| `SurfaceEditor.RemovePolygons` | colour-simulator/src/app/components/surface-editor/surface-editor.component.ts:350-353 | the removal loop leaves exactly the objects that are not polygons, in order |
| `SurfaceEditor.AddRestored` | colour-simulator/src/app/components/surface-editor/surface-editor.component.ts:355-388 | the adding loop appends one restored polygon per stored zone, in order |
| `SurfaceEditor.SurfaceEditorComponent.constructor` | colour-simulator/src/app/components/surface-editor/surface-editor.component.ts:24-36 | starts with no canvas, no zones, counter 1, no selection and nothing pending |
| `SurfaceEditor.SurfaceEditorComponent.NgAfterViewInit` | colour-simulator/src/app/components/surface-editor/surface-editor.component.ts:38-77 | without the library only the flag is set; otherwise pending background and zones are preferred, consumed, and restored without emitting |
| `SurfaceEditor.SurfaceEditorComponent.CreateCanvas` | colour-simulator/src/app/components/surface-editor/surface-editor.component.ts:44-76 | canvas creation starts the initial background, restores the initial zones and updates the shown name |
| `SurfaceEditor.SurfaceEditorComponent.OpenCanvas` | colour-simulator/src/app/components/surface-editor/surface-editor.component.ts:44-67 | the new canvas is empty and only the initial background decode is in flight |
| `SurfaceEditor.SurfaceEditorComponent.FillCanvas` | colour-simulator/src/app/components/surface-editor/surface-editor.component.ts:69-76 | on the empty canvas the initial zones are restored without emitting, then the shown name is updated |
| `SurfaceEditor.SurfaceEditorComponent.ShowImageName` | colour-simulator/src/app/components/surface-editor/surface-editor.component.ts:76 | the shown name becomes the surface's image name when it has one, and is kept otherwise |
| `SurfaceEditor.SurfaceEditorComponent.LoadInitialBackground` | colour-simulator/src/app/components/surface-editor/surface-editor.component.ts:62-67 | the chosen initial background is the only decode started; a truthy pending one is cleared |
| `SurfaceEditor.SurfaceEditorComponent.RestoreInitialZones` | colour-simulator/src/app/components/surface-editor/surface-editor.component.ts:69-74 | the chosen initial zones are restored without emitting, and nothing stays pending |
| `SurfaceEditor.SurfaceEditorComponent.NgOnChanges` | colour-simulator/src/app/components/surface-editor/surface-editor.component.ts:79-83 | the new input is stored and handled as `HandleCustomSurfaceChange` states |
| `SurfaceEditor.SurfaceEditorComponent.HandleCustomSurfaceChange` | colour-simulator/src/app/components/surface-editor/surface-editor.component.ts:281-298 | the name always follows; before the canvas only pending values change; without an image the canvas is cleared and `[]` emitted; otherwise a new URL starts a load and the zones are replaced without emitting, clearing the selection of a removed polygon |
| `SurfaceEditor.SurfaceEditorComponent.ShowSurface` | colour-simulator/src/app/components/surface-editor/surface-editor.component.ts:294-297 | a decode starts only for a URL other than the shown one, and the surface's zones replace the polygons without emitting, clearing the selection of a removed polygon |
| `SurfaceEditor.SurfaceEditorComponent.SetCanvasBackground` | colour-simulator/src/app/components/surface-editor/surface-editor.component.ts:300-306 | without a canvas the URL becomes pending; with one a decode starts and the shown URL is not yet changed |
| `SurfaceEditor.SurfaceEditorComponent.OnBackgroundLoaded` | colour-simulator/src/app/components/surface-editor/surface-editor.component.ts:308-323 | a completed decode sizes the canvas (800×500 when the image has no size) and records its URL as applied |
| `SurfaceEditor.SurfaceEditorComponent.ClearCanvas` | colour-simulator/src/app/components/surface-editor/surface-editor.component.ts:328-341 | empties the objects, zones, pending zones, selection and background URL, and emits `[]` |
| `SurfaceEditor.SurfaceEditorComponent.ApplyZones` | colour-simulator/src/app/components/surface-editor/surface-editor.component.ts:343-394 | before the canvas the zones become pending; otherwise the polygons are replaced, other objects kept, the stored ids and labels read back, a selection whose polygon was removed is cleared, and nothing emitted |
| `SurfaceEditor.SurfaceEditorComponent.ReplaceZones` | colour-simulator/src/app/components/surface-editor/surface-editor.component.ts:349-393 | the restore followed by its read-back leaves the restoring flag off, keeps a selection only when no removed polygon carried it and a stored zone does, and emits nothing |
| `SurfaceEditor.SurfaceEditorComponent.RestorePolygons` | colour-simulator/src/app/components/surface-editor/surface-editor.component.ts:349-392 | sets the restoring flag, swaps the polygons for restored ones, recomputes the counter from the stored ids, and clears the selection when a removed polygon carried it |
| `SurfaceEditor.RestoreClearsSelection` | colour-simulator/src/app/components/surface-editor/surface-editor.component.ts:349-353 | restoring zones while a canvas polygon carries the selected id always ends with no selection |
| `SurfaceEditor.SurfaceEditorComponent.SyncZonesFromCanvas` | colour-simulator/src/app/components/surface-editor/surface-editor.component.ts:176-237 | the zone list becomes the read-back, a stale selection is dropped, the counter is recomputed, and it emits exactly once unless a restore flag is absorbed |
| `SurfaceEditor.SurfaceEditorComponent.RefreshZones` | colour-simulator/src/app/components/surface-editor/surface-editor.component.ts:181-229 | the polygons are filled in as `Fill` does, the zone list agrees with them, a stale selection is dropped, and the counter exceeds every suffix |
| `SurfaceEditor.SurfaceEditorComponent.EmitZonesChange` | colour-simulator/src/app/components/surface-editor/surface-editor.component.ts:396-403 | the listener receives the current zone list |
| `SurfaceEditor.SurfaceEditorComponent.AddPolygonZone` | colour-simulator/src/app/components/surface-editor/surface-editor.component.ts:97-133 | a no-op unless zones can be added; otherwise one rectangle `zone-N`/`Zone N` is appended with a fresh id, selected, the counter advances to N+1 and the list is emitted |
| `SurfaceEditor.SurfaceEditorComponent.AddRectangle` | colour-simulator/src/app/components/surface-editor/surface-editor.component.ts:102-132 | the rectangle `zone-N` is appended with a fresh id and selected, the counter becomes N+1, and the new list is emitted |
| `SurfaceEditor.SurfaceEditorComponent.PlaceRectangle` | colour-simulator/src/app/components/surface-editor/surface-editor.component.ts:102-130 | the rectangle with id `zone-N` and label `Zone N` joins the canvas and is selected, and the counter advances to N+1 |
| `SurfaceEditor.SurfaceEditorComponent.RemoveSelectedZone` | colour-simulator/src/app/components/surface-editor/surface-editor.component.ts:135-148 | a no-op without a selection or a match; otherwise only the matching object goes, the selection is cleared and the list is emitted |
| `SurfaceEditor.SurfaceEditorComponent.OnZoneLabelChange` | colour-simulator/src/app/components/surface-editor/surface-editor.component.ts:150-161 | a missing id is a no-op; otherwise only that object's label changes, the ids stay, and the list is emitted |
| `SurfaceEditor.SurfaceEditorComponent.ReplaceObject` | colour-simulator/src/app/components/surface-editor/surface-editor.component.ts:155-159 | replacing one object and reading back changes only that zone and keeps the ids |
| `SurfaceEditor.SurfaceEditorComponent.SelectZone` | colour-simulator/src/app/components/surface-editor/surface-editor.component.ts:163-174 | a missing id is a no-op; otherwise only the selection changes, to that id |
| `SurfaceEditor.SurfaceEditorComponent.OnSelection` | colour-simulator/src/app/components/surface-editor/surface-editor.component.ts:239-246 | the selection becomes the first selected object's truthy zone id, or none |
| `SurfaceEditor.SurfaceEditorComponent.OnSelectionCleared` | colour-simulator/src/app/components/surface-editor/surface-editor.component.ts:54 | a cleared selection empties the selected zone id |
| `SurfaceEditor.SurfaceEditorComponent.OnVertexDragged` | colour-simulator/src/app/components/surface-editor/surface-editor.component.ts:263-273 | the vertex takes the new local point, and only that zone changes, to the polygon's new absolute points |
| `SurfaceEditor.SurfaceEditorComponent.OnObjectTransformed` | colour-simulator/src/app/components/surface-editor/surface-editor.component.ts:49-51 | a moved or scaled object is read back; only its zone changes |
| `PalettePanel.FirstZoneId` | colour-simulator/src/app/components/palette-panel/palette-panel.component.ts:20 | none exactly when the surface has no zones, otherwise the first zone's id |
| `PalettePanel.ActiveAfterSurfaceChange` | colour-simulator/src/app/components/palette-panel/palette-panel.component.ts:19-24 | a truthy active id naming a zone is kept; the result is none exactly when there are no zones and otherwise a zone id of the surface |
| `PalettePanel.CurrentZone` | colour-simulator/src/app/components/palette-panel/palette-panel.component.ts:48 | a stored active id is used as is; otherwise the first zone's id |
| `PalettePanel.CurrentZoneSettles` | colour-simulator/src/app/components/palette-panel/palette-panel.component.ts:47-53 | asking again after a query gives the same zone |
| `PalettePanel.PalettePanelComponent.constructor` | colour-simulator/src/app/components/palette-panel/palette-panel.component.ts:12-16 | starts with no active zone |
| `PalettePanel.PalettePanelComponent.NgOnChanges` | colour-simulator/src/app/components/palette-panel/palette-panel.component.ts:18-25 | a new surface re-derives the active zone; other changes leave it alone |
| `PalettePanel.PalettePanelComponent.SetActiveZone` | colour-simulator/src/app/components/palette-panel/palette-panel.component.ts:31-33 | sets the active zone unconditionally |
| `PalettePanel.PalettePanelComponent.ApplyColour` | colour-simulator/src/app/components/palette-panel/palette-panel.component.ts:35-37 | afterwards the store maps the zone to that colour and no other entry changes |
| `PalettePanel.PalettePanelComponent.ToggleFavourite` | colour-simulator/src/app/components/palette-panel/palette-panel.component.ts:39-41 | the store's favourites become the toggled list |
| `PalettePanel.PalettePanelComponent.IsFavourite` | colour-simulator/src/app/components/palette-panel/palette-panel.component.ts:43-45 | answers membership in the store's favourites |
| `PalettePanel.PalettePanelComponent.IsZoneActive` | colour-simulator/src/app/components/palette-panel/palette-panel.component.ts:47-53 | with an active id nothing changes and the answer is equality; without one the first zone's id is stored first |
| `SurfaceViewer.ZoneValue` | colour-simulator/src/app/components/surface-viewer/surface-viewer.component.ts:23-26 | a zone writes a value exactly when it has a chosen colour with a non-empty hex code |
| `SurfaceViewer.Write` | colour-simulator/src/app/components/surface-viewer/surface-viewer.component.ts:27-40 | writing a variable sets it and no other variable |
| `SurfaceViewer.PaintedStep` | colour-simulator/src/app/components/surface-viewer/surface-viewer.component.ts:22-41 | one more zone changes a variable only when that zone writes it |
| `SurfaceViewer.UnwrittenKept` | colour-simulator/src/app/components/surface-viewer/surface-viewer.component.ts:22-41 | a variable no zone writes keeps its previous value; there is no reset |
| `SurfaceViewer.LastWriteWins` | colour-simulator/src/app/components/surface-viewer/surface-viewer.component.ts:22-41 | a variable ends with the hex code of the last zone that writes it |
| `SurfaceViewer.OtherVariableKeepsBound` | colour-simulator/src/app/components/surface-viewer/surface-viewer.component.ts:37-39 | a zone with any other variable leaves the three bound ones unchanged |
| `SurfaceViewer.SurfaceViewerComponent.constructor` | colour-simulator/src/app/components/surface-viewer/surface-viewer.component.ts:14-16 | the initial values are `#d9dde1`, `#c5cad0` and `#a3aab3` |
| `SurfaceViewer.SurfaceViewerComponent.NgOnChanges` | colour-simulator/src/app/components/surface-viewer/surface-viewer.component.ts:18-42 | without a surface nothing changes; otherwise the loop paints the zones in order over the current values |

## Left out

- Affine geometry: the transform matrix, `transformPoint`, `toLocalPoint` and the path offset are floating-point code inside the drawing library. Absolute points come from the `absolute` parameter, and a vertex drag receives the local point directly.
- Style snapshots: a snapshot is kept as its local points plus a map of attributes, with every value as a string. Attribute types are not modelled.
- EditorModel.RestoredAttributes: a `pathOffset` recorded in a snapshot is not carried over, because the offset belongs to the library's geometry, which the model leaves out.
- Vertex controls: `makePolygonEditable` and the `object:added` hook only install handles and cursor styles. The model keeps only the effect of a drag (`OnVertexDragged`).
- Rendering: `renderAll`, `requestRenderAll`, `setCoords`, the background image's scale options and `ngOnDestroy`'s `dispose` change nothing that the model tracks.
- Number precision: the counter is an unbounded natural. Very long digit suffixes, which `Number` would round, are not modelled.
- Multiple selection: a selection of several objects is not modelled. The selection is the first selected object's id, and the polygon carrying that id stands for the library's active object.
- The stale-decode race is allowed, not prevented: completions may come in any order.
- `viewModel$` and `getColourFamilies`: the first is a pure projection of the store's fields and the second returns the catalogue constant.
- SurfaceViewer.Write: a styling variable whose name equals one of the component's own property names (for example `zoneMain`) would overwrite that property in the application. The model keeps such values in a separate map.
- PalettePanel.PalettePanelComponent.IsZoneActive: requires a surface when no zone is active, because the application would fail on an unset surface there.
- The catalogue holds only the three predefined surfaces and the first colour. The other colour families are not part of this model.
- The intro, simulator, sidebar, colour-card and legend components, routing and module wiring are view glue and are not part of this model.
