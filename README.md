# Novel Navigation: a Dafny model of the story editor, the player and the map view

Novel Navigation shows a story as a sequence of scenes on a map. Each scene has a
position, a title, a description and a timestamp. Readers play the scenes back one
after another, and authors add, edit, move and delete them.

This project models three pieces of the application's logic:

- **The Scene Store edits** behind the author tools: add a scene, delete a scene (then renumber the timestamps), edit a field, move a scene, set the title, build the export file name, and import.
- **The application's state machine**: the current scene, the play flag, the path toggle, the story and the mode. Its transitions are play, reset, next, the auto-advance timer, the timeline slider, story replacement, and the map's click and drag events.
- **The map's view-model**: which markers are shown and whether they can be dragged, the path line, the map centre, and whether a click is passed on.

Modules:

- `Scenes` (scenes.dfy): the data model (`LatLng`, `Scene`, `Story`, `Option`); `Normalized` (each timestamp equals its index); the decimal rendering of counts that default titles use.
- `SceneStore` (scene_store.dfy): every edit as a function from the old story to the new one, with lemmas about those functions.
- `AuthorTools` (author_tools.dfy): class `Editor`, the author panel. Its `editingStory` field is overwritten by each edit, and each method's contract ties the new value to the `SceneStore` function.
- `Playback` (app.dfy): the sample story; the transport as functions on `Cursor(scene, playing)` with lemmas about repeated ticks; class `Player`, whose fields are the application's state and whose methods are the handlers; three client scenarios.
- `MapView` (map_editor.dfy): the view-model as pure functions with prefix and selection lemmas.

Modelling choices:

- Ids are opaque integers passed in by the caller (the source uses `Date.now()`). Nothing assumes they are unique, because the source does not guarantee it. Deleting removes every scene that carries the id.
- The two `Math.random()` draws of "Add Scene" are parameters `u` and `v` in [0, 1). The resulting position is proved to lie within 0.05 degrees of the default centre.
- Coordinates are `real`.
- The timer is an explicit `Tick`: one run of the auto-advance effect (src/App.jsx:59-68). While playing with a next scene, the timer fires and the index moves forward. While playing at or past the last scene, playing stops; the source does this at once, with no 3-second wait. So the sample story needs three ticks to reach scene 4, and one more run of the effect stops the player (`Playback.PlaybackScenario`).
- `story.scenes.slice(0, currentScene + 1)` follows JavaScript's `slice`, including negative ends. `story.scenes[currentScene]` is `None` outside the sequence.
- The export name follows `/\s+/g` exactly. `IsJsWhitespace` lists the code points JavaScript's `\s` matches (the ECMAScript WhiteSpace and LineTerminator characters).

Where the source and its design description differ, the model follows the source:

- `handlePlay` flips the play flag without checking for the last scene. At the last scene the next run of the effect turns playing off again, so pressing play there has no net effect (`Playback.PlayAtLastUndone`). The design describes this as a guarded `play()`.
- Import only fails when `JSON.parse` throws. A file that parses but lacks story fields is accepted as it is. The model's parse result is `Option<Story>`: `None` means the parse threw.
- The author panel copies the story once, when it opens (src/components/AuthorTools.jsx:6). A scene added later by a map click goes into the application's story only, so "Save Story" drops it (`Playback.SaveAfterMapClickScenario`).

## Model

| member | source | states |
|---|---|---|
| `Scenes.NatToString` | src/components/AuthorTools.jsx:13 | a count renders as a non-empty string of decimal digits with no leading zero |
| `Scenes.ParseNatToString` | src/components/AuthorTools.jsx:13 | reading the rendered digits back gives the count |
| `Scenes.NatToStringInjective` | src/App.jsx:106 | different counts give different renderings, so default titles differ |
| `SceneStore.JitteredPosition` | src/components/AuthorTools.jsx:15 | an added scene lies within 0.05 degrees of (51.505, -0.09) on each axis |
| `SceneStore.Append` | src/components/AuthorTools.jsx:19-22 | one scene more; the old scenes are a prefix of the new sequence; the new scene is last; the title is kept |
| `SceneStore.AddScene` | src/components/AuthorTools.jsx:10-23 | count + 1; earlier scenes unchanged and in place; the new scene has the given id, title "New Scene " + (old count + 1), the default description, timestamp = old count and a position near the centre; normalized timestamps stay normalized |
| `SceneStore.AddedTitleTellsCount` | src/components/AuthorTools.jsx:13 | two added scenes with the same default title were added to stories of the same length |
| `SceneStore.Survivors` | src/components/AuthorTools.jsx:28 | a scene is kept exactly when it was in the input and its id differs |
| `SceneStore.SurvivorsAppend` | src/components/AuthorTools.jsx:28 | filtering distributes over concatenation, so survivors keep their relative order |
| `SceneStore.SurvivorsSingle` | src/components/AuthorTools.jsx:28 | one scene is kept exactly when its id differs |
| `SceneStore.SurvivorsAbsent` | src/components/AuthorTools.jsx:28 | filtering by an id no scene has changes nothing |
| `SceneStore.Renumber` | src/components/AuthorTools.jsx:29 | length is kept; each timestamp equals its index; every other field is kept |
| `SceneStore.RenumberNormalized` | src/components/AuthorTools.jsx:29 | renumbering already-normalized scenes changes nothing |
| `SceneStore.DeleteScene` | src/components/AuthorTools.jsx:25-31 | no scene with the id remains; the survivors come in input order with every field but the timestamp kept; timestamps equal indices; the title is kept |
| `SceneStore.DeleteAbsent` | src/components/AuthorTools.jsx:25-31 | deleting an absent id from a normalized story is a no-op |
| `SceneStore.DeleteIdempotent` | src/components/AuthorTools.jsx:25-31 | deleting twice is deleting once |
| `SceneStore.DeleteMiddle` | src/components/AuthorTools.jsx:28-29 | deleting the middle of three scenes leaves the outer two, in order, with timestamps 0 and 1 |
| `SceneStore.MapMatching` | src/components/AuthorTools.jsx:36-38 | length is kept; matching scenes are edited; all others are identical |
| `SceneStore.UpdateSceneField` | src/components/AuthorTools.jsx:33-40 | length and ids are kept; only the named field of matching scenes becomes the value; other scenes are identical; an absent id is a no-op; timestamps stay normalized |
| `SceneStore.UpdateFieldIdempotent` | src/components/AuthorTools.jsx:36-38 | the same field edit applied twice equals applying it once |
| `SceneStore.UpdateFieldsCommute` | src/components/AuthorTools.jsx:36-38 | title and description edits commute |
| `SceneStore.UpdatePosition` | src/components/AuthorTools.jsx:42-49 | matching scenes get position (lat, lng) with every other field kept; other scenes are identical; an absent id is a no-op; length is kept |
| `SceneStore.UpdatePositionLastWins` | src/components/AuthorTools.jsx:45-47 | of two moves of the same scene, only the last one counts |
| `SceneStore.SetTitle` | src/components/AuthorTools.jsx:123 | the title becomes the input and the scenes are untouched |
| `SceneStore.CollapseSpaces` | src/components/AuthorTools.jsx:62 | the result has no whitespace and is no longer than the input |
| `SceneStore.CollapseIsScan` | src/components/AuthorTools.jsx:62 | replacing whole whitespace runs agrees with a character-by-character scan that emits one `_` per run |
| `SceneStore.CollapseSpaceFree` | src/components/AuthorTools.jsx:62 | a title without whitespace is kept as it is |
| `SceneStore.CollapseIdempotent` | src/components/AuthorTools.jsx:62 | collapsing twice is collapsing once |
| `SceneStore.ExportFilename` | src/components/AuthorTools.jsx:62 | the name ends in ".json"; its stem is the title with each whitespace run turned into one `_`; a title without whitespace is kept |
| `SceneStore.ImportStory` | src/components/AuthorTools.jsx:72-78 | a failed parse keeps the edited story exactly; a successful one replaces it wholesale |
| `AuthorTools.Editor.constructor` | src/components/AuthorTools.jsx:5-6 | the panel starts on its reader side, editing a copy of the current story |
| `AuthorTools.Editor.SetAuthorMode` | src/components/AuthorTools.jsx:88-91 | sets the panel's mode, reports it to the application, and leaves the edited story alone |
| `AuthorTools.Editor.AddScene` | src/components/AuthorTools.jsx:10-23 | the edited story becomes the `AddScene` result |
| `AuthorTools.Editor.DeleteScene` | src/components/AuthorTools.jsx:25-31 | the edited story becomes the `DeleteScene` result |
| `AuthorTools.Editor.UpdateScene` | src/components/AuthorTools.jsx:33-40 | the edited story becomes the `UpdateSceneField` result |
| `AuthorTools.Editor.UpdatePosition` | src/components/AuthorTools.jsx:42-49 | the edited story becomes the `UpdatePosition` result |
| `AuthorTools.Editor.EditTitle` | src/components/AuthorTools.jsx:123 | the edited story gets the new title |
| `AuthorTools.Editor.Save` | src/components/AuthorTools.jsx:51-54 | hands over exactly the edited story |
| `AuthorTools.Editor.ExportName` | src/components/AuthorTools.jsx:56-65 | the download name is the collapsed title followed by ".json" |
| `AuthorTools.Editor.Import` | src/components/AuthorTools.jsx:67-82 | reports success exactly when the parse succeeded; on failure the edited story is unchanged |
| `Playback.SampleStory` | src/App.jsx:17-49 | four scenes, ids 1 to 4, with timestamps equal to their indices |
| `Playback.NextScene` | src/App.jsx:79-83 | moves one forward exactly when the index is below N-1, otherwise stays; never passes N-1 |
| `Playback.TickStep` | src/App.jsx:59-68 | while playing, a tick is a step forward; playing continues exactly when there was a next scene; when paused nothing changes |
| `Playback.TicksBounded` | src/App.jsx:60-67 | any number of ticks never moves the index back, nor past N-1 (or past where it started) |
| `Playback.PausedTicksIdle` | src/App.jsx:60 | a paused player ignores ticks |
| `Playback.TicksAdvance` | src/App.jsx:60-63 | with k scenes ahead or more, k ticks move k scenes and playing continues |
| `Playback.TicksReachLast` | src/App.jsx:60-67 | from any index up to N-1, N - index ticks or more end at N-1 with the player stopped |
| `Playback.TicksSplit` | src/App.jsx:59-68 | a + b ticks are a ticks followed by b ticks |
| `Playback.PlayAtLastUndone` | src/App.jsx:65-72 | pressing play at the last scene is undone by the next run of the effect |
| `Playback.NextExtendsPath` | src/App.jsx:119 | a step forward extends the played path by exactly the new scene's position |
| `Playback.SliderValue` | src/App.jsx:143-152 | the slider reports a value in [0, max(N-1, 0)]; an in-range value is reported unchanged; out-of-range values are clamped |
| `Playback.MapClickStory` | src/App.jsx:101-116 | in reader mode the story is unchanged; in author mode one scene is appended after the unchanged old ones, with the given id, title "Scene " + (old count + 1), position (lat, lng) and timestamp = old count |
| `Playback.Player.constructor` | src/App.jsx:52-56 | the player starts at scene 0, paused, showing the path, in reader mode, on the sample story |
| `Playback.Player.Play` | src/App.jsx:70-72 | flips the play flag and nothing else |
| `Playback.Player.Reset` | src/App.jsx:74-77 | goes to scene 0, paused; nothing else changes |
| `Playback.Player.Next` | src/App.jsx:79-83 | the index becomes `NextScene` of the old one; nothing else changes |
| `Playback.Player.Tick` | src/App.jsx:59-68 | the index and play flag become `TickStep` of the old ones; nothing else changes |
| `Playback.Player.Seek` | src/App.jsx:143-152 | in reader mode the index becomes the slider value; in author mode it is unchanged (the slider is disabled) |
| `Playback.Player.SetShowPath` | src/App.jsx:167-171 | sets the path toggle only |
| `Playback.Player.SetAuthorMode` | src/App.jsx:177-196 | sets the mode only |
| `Playback.Player.UpdateStory` | src/App.jsx:85-90 | the story is replaced; the index becomes 0 and playing stops |
| `Playback.Player.ScenePositionUpdate` | src/App.jsx:92-99 | the story becomes the `UpdatePosition` result; nothing else changes |
| `Playback.Player.MapClick` | src/App.jsx:101-116 | the story becomes the `MapClickStory` result for the current mode; nothing else changes |
| `Playback.Player.PathPositions` | src/App.jsx:119 | the positions of scenes 0 through the current one, in order (none for an empty story) |
| `MapView.ForwardClick` | src/components/MapEditor.jsx:4-13 | a click is passed on, with its own coordinates, exactly when in author mode with a handler present |
| `MapView.SceneAt` | src/components/MapEditor.jsx:55 | the current scene exists exactly when the index is valid |
| `MapView.MarkerFor` | src/components/MapEditor.jsx:15-29 | a marker is draggable and reports drags exactly in author mode |
| `MapView.Markers` | src/components/MapEditor.jsx:71-92 | author mode: all scenes, in story order; reader mode: at most one marker, the current scene exactly when the index is valid; draggable exactly in author mode |
| `MapView.SliceEnd` | src/components/MapEditor.jsx:56 | where `slice(0, end)` stops, including negative ends; never past the length |
| `MapView.Positions` | src/components/MapEditor.jsx:97 | the scene positions in order |
| `MapView.PathPositions` | src/components/MapEditor.jsx:56 | the positions of the scenes `slice(0, currentScene + 1)` selects, in order |
| `MapView.PathIsPrefix` | src/components/MapEditor.jsx:56 | for an index of 0 or more, the path is the first min(currentScene + 1, N) positions |
| `MapView.PathGrows` | src/components/MapEditor.jsx:56 | a larger index gives a path that extends the smaller one's |
| `MapView.PathLine` | src/components/MapEditor.jsx:94-103 | a line is drawn exactly when the toggle is on and the played path has two positions or more; author mode: all positions, red and dashed; reader mode: the played path, blue and solid |
| `MapView.AuthorPathHiddenAtFirstScene` | src/components/MapEditor.jsx:95 | in author mode at scene 0 no line is drawn, whatever the number of scenes |
| `MapView.IntendedPathLine` | src/components/MapEditor.jsx:95-101 | the line gated on the positions it draws; reader mode is as in the source |
| `MapView.IntendedAuthorPathShown` | src/components/MapEditor.jsx:95-101 | with the correction, author mode draws all positions whenever there are two scenes or more |
| `MapView.Center` | src/components/MapEditor.jsx:60 | the current scene's position when the index is valid, otherwise (51.505, -0.09) |
| `MapView.ReaderViewAgrees` | src/components/MapEditor.jsx:84-91 | in reader mode the one marker, the last path vertex and the map centre are all the current scene |

## Findings

| source | as written | input that shows it | evidently intended | confidence | as-written member | corrected member |
|---|---|---|---|---|---|---|
| src/components/MapEditor.jsx:95 | the path line is gated on `pathPositions.length > 1`, the reader's played prefix, also in author mode, where the line draws every scene | author mode, path shown, two scenes or more, current scene 0 (as after Save or Reset): no line is drawn | gate on the positions the line draws, so the author preview shows whenever there are two scenes or more | medium, not executed | `MapView.AuthorPathHiddenAtFirstScene` | `MapView.IntendedPathLine` |

`MapView.PathLine` models line 95 as written. `MapView.IntendedAuthorPathShown` is the property proved of the corrected definition. Nothing else in the model depends on which of the two is used.

## Left out

- Leaflet rendering is not modelled: the tile layer, the icon URL patch (src/App.jsx:8-14), popups and their `toFixed` text, the zoom level, and line weight and opacity. This is presentation and library code.
- `setTimeout` and `clearTimeout` are not modelled, nor is React's effect scheduling or the 3000 ms delay. Auto-advance is the explicit `Tick` step. Rescheduling on manual index changes is implicit: a pending timer never fires against a stale index.
- Browser I/O is not modelled: `Blob`, `URL.createObjectURL`, the download link, `FileReader` and `alert`. `Editor.Import` returns which message would be shown. The import with no file selected (src/components/AuthorTools.jsx:69) does nothing and is not modelled.
- `JSON.stringify` and `JSON.parse` internals are not modelled. The export text, and the design's export/import round trip, are left out. The parse result is a parameter. A JSON value that parses but is not shaped like a story is outside `Option<Story>`.
- `Date.now()` ids and `Math.random()` draws are parameters.
- Floating point is not modelled: coordinates are reals. The `NaN` that `parseFloat` yields for an empty number field (src/components/AuthorTools.jsx:179,189) is not modelled.
- `parseInt` on the slider value is not modelled: the slider's value is taken to be the integer the range input already holds.
- `handleSceneUpdate` accepts any key as `field`. Its callers pass only `'title'` and `'description'`, and only those two are modelled.
- React batches state updates. `handleAddScene` and `handleMapClick` number the new scene from the rendered story but append it to the pending one. The model treats these as the same story, which holds when no other update is pending.
- The unused `draggedScene` state and `fileInputRef` are not modelled.
