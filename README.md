# 3DEditor core in Dafny

This project models the logic of a browser 3D scene editor and proves properties of that model. The editor's rendering is not modelled. Three parts are covered:

- **The editor state** (`Playground/index.jsx`). It holds the shape list, an undo history of shape-list snapshots, the selected object, the per-shape keyframes (shape id → frame → transform) and the current frame. It is modelled as the class `Playground.Editor`, with one method per handler. The library icon lookup is a loop method proved against a specification function.
- **The animation timeline** (`Timeline.jsx`). This covers the tick labels, the playback frame and duration transitions, and the per-object animation flags (object id → animation name → on/off). `CalculateIntervals` is a loop method. The frame and duration handlers are methods of the class `Timeline.Timeline`. `toggleAnimation` and `getAppliedAnimations` are pure functions with lemmas.
- **The scene exporter** (`ExportButton.jsx`). `analyzeShapeUsage` is a loop method proved against a fold. The `generate*` template functions and the text of `exportScene` are pure functions over strings.

Files:

- `wrappers.dfy` holds `Option`.
- `text.dfy` holds the JavaScript string behaviour the core relies on: `join`, `${n}` for integers, `parseInt` without a radix (with a round-trip lemma) and ASCII case mapping.
- `scene.dfy` holds the shape record.
- `playground.dfy`, `timeline.dfy` and `export.dfy` hold the three parts.

JavaScript truthiness is written out where the source depends on it:

- `updates.scale || prev` treats a scale of 0 as absent.
- `texturePath ? … : "null"` treats `""` as no texture.
- `!selectedObject?.id` treats id 0 as no selection.
- `geometryDefinitions[type]` counts only when the entry is present and not `""`.

JavaScript `Set`s and object properties keep insertion order. They are modelled as sequences without duplicates.

Behaviours of the source that the model keeps as written:

- `undo` restores shapes only. Keyframes created by the undone `addShape` remain (`Playground.UndoAfterAdd`).
- `updateObject` never writes a scale of 0 into a keyframe.
- `deleteAnimation` deletes the flag under `anim` as given. `toggleAnimation` uses the lower-cased name.

## Model

| member | source | states |
|---|---|---|
| Playground.LibraryIconMiss | 3DEditor/src/components/Playground/index.jsx:77-83 | a type that no library entry has gets the default icon "⬡" |
| Playground.LibraryIconHit | 3DEditor/src/components/Playground/index.jsx:77-83 | otherwise the icon is that of the first matching entry, scanning categories and then entries in order |
| Playground.FindShapeIcon | 3DEditor/src/components/Playground/index.jsx:77-83 | the nested loop with early return yields exactly the library icon specified above |
| Playground.Editor.AddShape | 3DEditor/src/components/Playground/index.jsx:85-115 | the old list is pushed onto history; the new shape is appended and earlier shapes are unchanged; a type-name shape gets the library icon, position and rotation [0,0,0], colour #888888 and scale 1, plus a keyframe 0 with that transform; other ids' keyframes are unchanged; an imported shape leaves keyframes alone |
| Playground.Merge | 3DEditor/src/components/Playground/index.jsx:141 | every property the update carries (any of the shape's ten) replaces the shape's, and every property it does not carry is kept |
| Playground.MergeNothing | 3DEditor/src/components/Playground/index.jsx:141 | an update that carries nothing leaves the shape unchanged |
| Playground.MergeTwice | 3DEditor/src/components/Playground/index.jsx:141 | merging the same update a second time changes nothing more |
| Playground.ApplyUpdates | 3DEditor/src/components/Playground/index.jsx:139-143 | length and order are preserved; shapes with the id become the merge and all others are unchanged |
| Playground.ApplyUpdatesIdempotent | 3DEditor/src/components/Playground/index.jsx:139-143 | applying the same update twice equals applying it once |
| Playground.WriteKeyframe | 3DEditor/src/components/Playground/index.jsx:121-136 | only the keyframe at (id, frame) is written; each component is the update's if present, otherwise the previous keyframe's; a scale of 0 does not replace it; other frames and ids are unchanged |
| Playground.Editor.UpdateObject | 3DEditor/src/components/Playground/index.jsx:117-144 | no selection is a no-op; otherwise the shapes and keyframes change as ApplyUpdates and WriteKeyframe state; history and selection stay |
| Playground.WithoutId | 3DEditor/src/components/Playground/index.jsx:158 | a shape is kept iff it was in the list and its id differs |
| Playground.WithoutIdAppend | 3DEditor/src/components/Playground/index.jsx:158 | the filter keeps the order of the remaining shapes: it distributes over concatenation |
| Playground.WithoutAbsentId | 3DEditor/src/components/Playground/index.jsx:158 | a list without the id is unchanged by the filter |
| Playground.Editor.DeleteShape | 3DEditor/src/components/Playground/index.jsx:146-161 | with a selection, the selected id's shapes and keyframes are removed and the selection is cleared, without touching history; with none, nothing changes |
| Playground.DeleteRemovesShape | 3DEditor/src/components/Playground/index.jsx:146-161 | after delete, no shape carries the deleted id, no keyframes remain for it and nothing is selected |
| Playground.Editor.Undo | 3DEditor/src/components/Playground/index.jsx:163-168 | a non-empty history gives its last snapshot back as the shapes and loses that snapshot; an empty one changes nothing |
| Playground.UndoAfterAdd | 3DEditor/src/components/Playground/index.jsx:85-168 | undo right after add restores the shape list and the history |
| Playground.Editor.Select | 3DEditor/src/components/Playground/index.jsx:71 | the setter handed to the child components makes the given shape the selection and changes nothing else |
| Playground.Editor.SetCurrentFrame | 3DEditor/src/components/Playground/index.jsx:74 | the setter handed to the canvas sets the current frame and changes nothing else |
| Playground.Editor.Unselect | 3DEditor/src/components/Playground/index.jsx:170-172 | the selection is cleared and nothing else changes |
| Timeline.Step | 3DEditor/src/components/Timeline.jsx:30-34 | the step is 10, 20, 50 or 100; up to 1000 frames give at most ten steps, and beyond 100 frames more than four |
| Timeline.CalculateIntervals | 3DEditor/src/components/Timeline.jsx:29-44 | the result is non-empty, strictly increasing and ends at duration; all labels but the last are k·step; for duration ≥ 0 it starts at 0 and stays within [0, duration]; a negative duration gives [duration] |
| Timeline.Timeline.Tick | 3DEditor/src/components/Timeline.jsx:52-60 | the frame advances by one and is reported; on reaching the end it stops at duration and playback stops; a frame within range stays within range |
| Timeline.Timeline.TogglePlayPause | 3DEditor/src/components/Timeline.jsx:85-90 | a frame at or past the end resets to 0; playing always flips |
| Timeline.Timeline.Seek | 3DEditor/src/components/Timeline.jsx:97-99 | the stored frame is the click frame clamped to [0, duration]; the unclamped frame is reported |
| Timeline.Timeline.ChangeDuration | 3DEditor/src/components/Timeline.jsx:107-114 | the duration is max(1, parseInt(value), with NaN read as 0), so it is at least 1; a frame past the new end moves to it and is reported, otherwise the frame stays |
| Timeline.Assign | 3DEditor/src/components/Timeline.jsx:121-124 | setting a property gives it the new value, keeps every other property and keeps names distinct |
| Timeline.Remove | 3DEditor/src/components/Timeline.jsx:134 | deleting a property makes it absent and keeps every other property |
| Timeline.ToggleAnimation | 3DEditor/src/components/Timeline.jsx:116-126 | with no selected id nothing changes; otherwise only the lower-cased flag of the selected id is negated (missing counts as off); other ids and other flags are unchanged |
| Timeline.Timeline.Toggle | 3DEditor/src/components/Timeline.jsx:116-126 | the component's flags become ToggleAnimation of the old flags; distinct property names are preserved |
| Timeline.Timeline.DeleteAnimation | 3DEditor/src/components/Timeline.jsx:128-138 | with a selected id that has flags, only that id's flag named anim is removed; otherwise nothing changes |
| Timeline.AppliedAnimations | 3DEditor/src/components/Timeline.jsx:140-145 | empty without a selection or without flags for it; otherwise a name is listed iff its flag is on |
| Timeline.ToggleTwiceKeepsApplied | 3DEditor/src/components/Timeline.jsx:116-145 | toggling the same animation twice leaves the applied list unchanged, order included |
| Timeline.DeletedNotApplied | 3DEditor/src/components/Timeline.jsx:128-145 | after deleteAnimation(anim), anim is not among the applied animations |
| Text.ParseIntOfIntToString | 3DEditor/src/components/Timeline.jsx:108 | parseInt reads back any integer written in decimal |
| Export.SetAdd | 3DEditor/src/components/ExportButton.jsx:13-19 | Set.add keeps earlier members in place, adds the value once and never duplicates |
| Export.AnalysisMembers | 3DEditor/src/components/ExportButton.jsx:5-24 | a value is in a kind's set iff some shape of that kind records it (modelType for imported models, type otherwise), and no set repeats a value |
| Export.AnalyzeShapeUsage | 3DEditor/src/components/ExportButton.jsx:5-24 | the forEach loop computes the fold over the shapes, so the four sets have exactly the members above |
| Export.AnalysisSetsDisjoint | 3DEditor/src/components/ExportButton.jsx:11-21 | by the priority order, no type is in two of the model, geometry and basic sets, and "importedModel" is in none of them |
| Export.EnvironmentImport | 3DEditor/src/components/ExportButton.jsx:37-41 | there is no environment import exactly for "none" |
| Export.EnvironmentImportName | 3DEditor/src/components/ExportButton.jsx:38-41 | the import is Stars for stars, Sky for sky, Cloud for clouds, and Environment for every other value, "color" included |
| Export.GenerateImports | 3DEditor/src/components/ExportButton.jsx:27-45 | the fixed imports always come first; for "none" nothing follows them but the line break |
| Export.DefinitionTexts | 3DEditor/src/components/ExportButton.jsx:48-50 | each used geometry maps to its definition, and a missing one to the empty text that join writes for undefined |
| Export.GenerateGeometryFunctions | 3DEditor/src/components/ExportButton.jsx:47-51 | the definition of every used geometry that has one appears in the result |
| Export.SwitchCases | 3DEditor/src/components/ExportButton.jsx:56-61 | one case per used geometry, in order |
| Export.GenerateCustomGeometryComponent | 3DEditor/src/components/ExportButton.jsx:53-80 | the component is empty exactly when no custom geometry is used |
| Export.CustomGeometryHasCase | 3DEditor/src/components/ExportButton.jsx:56-71 | every used geometry's case, calling create + capitalised type + Geometry(), is in the component |
| Export.GenerateModelComponent | 3DEditor/src/components/ExportButton.jsx:82-105 | empty exactly when no configured model is used |
| Export.GenerateImportedModelComponent | 3DEditor/src/components/ExportButton.jsx:107-138 | empty exactly when no model file is used |
| Export.GenerateEnvironmentComponent | 3DEditor/src/components/ExportButton.jsx:140-155 | empty exactly when the environment is not one of stars, sky, clouds, sunset and color; for color the background colour appears in it |
| Export.EnvironmentElementIsImported | 3DEditor/src/components/ExportButton.jsx:37-149 | for the library environments, the element's tag is the name the import brings in |
| Export.NumberTexts | 3DEditor/src/components/ExportButton.jsx:159-160 | each component of a vector is written in decimal, in order |
| Export.VectorTextOfTriple | 3DEditor/src/components/ExportButton.jsx:159-160 | a position or rotation [x, y, z] is written "[x, y, z]" |
| Export.ImportedModelElement | 3DEditor/src/components/ExportButton.jsx:165-167 | an imported model is drawn by an ImportedModel element |
| Export.ModelElement | 3DEditor/src/components/ExportButton.jsx:169-171 | a configured model is drawn by a Model element naming the configured file and carrying `position={[…]}` and `rotation={[…]}` |
| Export.CustomGeometryElement | 3DEditor/src/components/ExportButton.jsx:173-181 | a custom geometry is drawn by a CustomGeometry element carrying `position={[…]}`, `rotation={[…]}` and the scale triple [s, s, s] |
| Export.MeshElement | 3DEditor/src/components/ExportButton.jsx:183-186 | a built-in shape is drawn by a mesh carrying `position={[…]}`, `rotation={[…]}` and scale [s, s, s], with a `<typeGeometry />` child |
| Export.GenerateShapeJSX | 3DEditor/src/components/ExportButton.jsx:157-187 | the element follows the analysis priority: ImportedModel, then Model, then CustomGeometry, otherwise mesh; all but ImportedModel carry the position and rotation written as `[a, b, c]`, and the last two carry scale [s, s, s] |
| Export.ShapeFragments | 3DEditor/src/components/ExportButton.jsx:210 | one element per shape, in order |
| Export.SceneBodySnoc | 3DEditor/src/components/ExportButton.jsx:210 | one more shape appends its element after the separator, so the body lists the shapes' elements in input order |
| Export.ExportScene | 3DEditor/src/components/ExportButton.jsx:189-217 | the exported text starts with the fixed imports, contains the shape elements joined in input order, and ends with the closing of the scene component and its default export |
| Export.ExportHasEveryShape | 3DEditor/src/components/ExportButton.jsx:189-217 | every shape's element appears in the exported file |
| Export.ExportDefinesModelWhenUsed | 3DEditor/src/components/ExportButton.jsx:189-217 | the file defines Model iff some shape is a configured model |
| Export.ExportDefinesImportedModelWhenUsed | 3DEditor/src/components/ExportButton.jsx:189-217 | the file defines ImportedModel iff some shape came from a model file |
| Export.ExportDefinesCustomGeometryWhenUsed | 3DEditor/src/components/ExportButton.jsx:189-217 | the file defines CustomGeometry iff some shape is a custom geometry |
| Export.ExportDefinesUsedGeometries | 3DEditor/src/components/ExportButton.jsx:47-217 | every custom geometry that a shape uses has both its switch case and its definition in the file |

## Left out

- Numbers are integers. Fractional positions, rotations and scales, and how JavaScript prints floating-point numbers, are not modelled.
- The `requestAnimationFrame` loop and its 16.67 ms delta check are not modelled. `Timeline.Timeline.Tick` models one tick's frame transition.
- `getBoundingClientRect` and the rounding of the click position are not modelled. `Timeline.Timeline.Seek` takes the integer frame.
- `onTimeUpdate` and `setCurrentFrame` calls to the parent are returned as the reported frame, not performed.
- `handleKeyframe` is a plain setter of the current frame, as `Playground.Editor.SetCurrentFrame` models it. The keyframe markers it is attached to are rendering.
- The Blob, object-URL and anchor-click download at the end of `exportScene` are DOM side effects. `Export.ExportScene` returns the text that would be downloaded.
- `URL.revokeObjectURL` in `deleteShape` is a host call and is left out.
- `JSON.stringify(shape)` is a function parameter, `serialize`. Its output is not modelled.
- The contents of `modelConfigs.json` and `geometryDefinition` are not shown. Both are abstract maps. A property name inherited from `Object.prototype` (such as `toString`) is not treated as present.
- The default arguments of `exportScene` (`'none'`, `'#000000'`) are not modelled. The model always passes both values.
- `Date.now()` ids are a fresh-id parameter. The shape library is a parameter of `Playground.FindShapeIcon`, and `Playground.ShapeLibrary` holds its contents.
- `toLowerCase` and `toUpperCase` are modelled for ASCII letters only. Unicode case mapping is left out.
- JavaScript orders integer-like property names numerically ahead of other names. The flag sequences keep plain insertion order.
- Shape properties that a shape lacks are the empty string in the model, not `undefined`.
- Timeline.Timeline.DeleteAnimation: models the deletion on a copy of the outer map. The source mutates the inner flag object in place, which the parent's previous state also sees, and that aliasing is not modelled.
- Sidebar, SceneRenderer, ObjectProperties, useKeyboardShortcuts and useAnimationControls are not part of this model. Neither are the JSX render trees and `CompiledScene.jsx`.
