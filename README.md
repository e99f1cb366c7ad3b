# Music app: paint canvas, paint store and mood mixer in Dafny

This project models the three pieces of logic in the music app that have
state:

- **The finger-paint canvas** (`app/components/Paint.tsx`). Touch handlers
  build an SVG-style path text, `"M x y L x y …"`, for the stroke in
  progress. On release the stroke is committed, together with the store's
  current color, to an append-only list. An eraser clears everything.
- **The paint store** (`app/store/paintStore.ts`). It holds the selected
  color and the selected template image.
- **The mood-music player** (`app/components/TextToMusic.tsx`). It covers:
  - the mode→asset table and its lookup with a fallback;
  - the six-channel volume mixer;
  - the playback volume;
  - the arc flag of the pie volume control;
  - the `selectedMode`/`loading`/`error`/`sound` state that the generate
    and stop buttons change.

Files:

- `wrappers.dfy`: `Option`.
- `path_syntax.dfy` (module `PathSyntax`):
  - path commands `MoveTo | LineTo`;
  - the serialiser `Serialize` to path text, which writes integers in
    decimal;
  - a parser `ParsePath`;
  - the round trip `ParsePath(Serialize(cmds)) == Some(cmds)` and the facts
    about the text that the canvas needs.
- `paint_store.dfy` (module `PaintStore`): class `Store`.
- `paint.dfy` (module `Paint`):
  - the bounds and dead-zone predicates;
  - the pure path update `ExtendPath`, which holds the source's restart
    branch;
  - class `Canvas` with `Grant`, `Move`, `Release` and `Clear`;
  - the palette;
  - a few concrete touch scenarios.
- `text_to_music.dfy` (module `MoodMixer`): the mode table, the mixer
  functions and class `Player`.

The canvas keeps the source's three fields: `currentPath` (a string),
`paths` and `isDrawing`. Two ghost fields give the command lists behind
`currentPath` and behind each committed path. `Canvas.Valid()` is the
invariant:
- `isDrawing` holds exactly when there are commands;
- the commands form a stroke, meaning one move-to first and line-tos after;
- every point lies in the 400×530 box and outside the dead-zone;
- each path text is the serialisation of its commands.

Every handler preserves `Valid()`. From it, `DrawingIffPathStarted` shows
that `isDrawing` holds exactly when `currentPath` is non-empty and starts
with `M`. `ExtendStroke` shows that the restart branch of the move handler
(`Paint.tsx:44`) is then never taken.

The audio library is not modelled. An `AudioResult` argument says which of
its calls succeed (unload, create, set volume, play). A `Sound` value stands
for a sound object: its asset, its volume and whether it is loaded, playing
or unloaded.

A valid move after a touch-down in the dead-zone does not start a new
stroke. The move handler returns at once when no stroke is active
(`Paint.tsx:34`), so nothing is drawn. `Paint.DeadZoneStartDrawsNothing`
states this.

## Model

| member | source | states |
|---|---|---|
| `PathSyntax.ParseSerialize` | app/components/Paint.tsx:28-44 | the path text that the handlers build reads back to exactly the commands that built it |
| `PathSyntax.SerializeInjective` | app/components/Paint.tsx:28-44 | two different command lists never give the same path text |
| `PathSyntax.SerializeShape` | app/components/Paint.tsx:40 | the path text is empty exactly for no commands; otherwise it begins with the first command's letter (`M` for a move-to) |
| `PathSyntax.SerializeSingle` | app/components/Paint.tsx:28 | a one-command path is `"M x y"`: the letter, a space, x, a space, y |
| `PathSyntax.SerializeSnoc` | app/components/Paint.tsx:41 | appending a command to a non-empty path appends a space and that command's text |
| `PathSyntax.ParseIntToString` | app/components/Paint.tsx:41 | the decimal text of a coordinate reads back to that coordinate |
| `Paint.ExtendStroke` | app/components/Paint.tsx:38-45 | on the text of a well-formed stroke, the move update appends exactly one `L x y`; the restart branch is not taken |
| `Paint.Canvas.constructor` | app/components/Paint.tsx:18-20 | starts with an empty path, no strokes and not drawing; the invariant holds |
| `Paint.Canvas.Grant` | app/components/Paint.tsx:24-31 | a touch-down at an accepted point sets the path to exactly `M x y` (one move-to) and starts drawing, with strokes kept; a touch-down in the dead-zone or outside the inclusive 400×530 box changes nothing |
| `Paint.Canvas.Move` | app/components/Paint.tsx:32-52 | while drawing, an accepted point appends exactly one `L x y` (one line-to) and keeps the strokes; when not drawing, or for a point in the dead-zone or out of bounds, nothing changes |
| `Paint.Canvas.Release` | app/components/Paint.tsx:53-59 | while drawing, appends `{path, color}` at the end of the strokes, using the store's color at release time, then clears the path and stops drawing; when not drawing, nothing changes |
| `Paint.Canvas.Clear` | app/components/Paint.tsx:62-66 | from any valid state, yields no strokes, an empty path and not drawing |
| `Paint.DrawingIffPathStarted` | app/components/Paint.tsx:40-44 | under the invariant, `isDrawing` holds exactly when `currentPath` is non-empty and starts with `M` |
| `Paint.PathTextsAccepted` | app/components/Paint.tsx:26-36 | every committed path text, and the current one while drawing, parses to a stroke whose points all lie in the box and outside the dead-zone |
| `Paint.PickColor` | app/components/Paint.tsx:96-105 | choosing palette entry i sets the store color to entry i of the 8-color palette and keeps the image |
| `Paint.Tap` | app/components/Paint.tsx:53-59 | a touch-down at an accepted point followed at once by a release commits the one-command path `M x y` with the store's color |
| `Paint.DrawRedStroke` | app/components/Paint.tsx:24-59 | down at (50,50), moves to (60,60) and (70,80), release with red selected: the strokes are exactly `[{"M 50 50 L 60 60 L 70 80", "#FF0000"}]` |
| `Paint.DeadZoneStartDrawsNothing` | app/components/Paint.tsx:26-34 | down at (5,5), move to (50,50), release: nothing is committed |
| `Paint.OutOfBoundsDrawsNothing` | app/components/Paint.tsx:27 | down at (600,600), then release: nothing is committed |
| `Paint.TwoStrokesKeepOrder` | app/components/Paint.tsx:55 | two strokes committed one after another appear in the order they were drawn |
| `PaintStore.Store.constructor` | app/store/paintStore.ts:20-23 | the initial color is `#000000` and the initial image is the first entry, the duck |
| `PaintStore.Store.SetColor` | app/store/paintStore.ts:24 | sets the color and keeps the selected image |
| `PaintStore.Store.SetSelectedImage` | app/store/paintStore.ts:25 | sets the selected image and keeps the color |
| `MoodMixer.FindIndex` | app/components/TextToMusic.tsx:159 | gives the first table entry whose id is the mode, or none when no entry has that id |
| `MoodMixer.AssetFor` | app/components/TextToMusic.tsx:158-161 | the asset is the audio of the mode's entry; with no entry (or no asset) it is `happy.mp3` |
| `MoodMixer.AssetTable` | app/components/TextToMusic.tsx:18-60 | every mode has an entry, so the fallback is never used; happy→happy.mp3, sad, peaceful and energetic→sad.mp3, meditation→meditation.mp3 |
| `MoodMixer.WithVolume` | app/components/TextToMusic.tsx:182-187 | the given channel takes the new value and the other five are unchanged |
| `MoodMixer.InitialVolumesFull` | app/components/TextToMusic.tsx:140-147 | all six channels start at 1.0, so every mode starts at playback volume 1.0 |
| `MoodMixer.WithVolumeInUnitRange` | app/components/TextToMusic.tsx:182-187 | setting a channel to a value in [0,1] keeps every channel in [0,1] |
| `MoodMixer.PlaybackVolumeInUnitRange` | app/components/TextToMusic.tsx:162-164 | with all channels in [0,1], the playback volume (mode channel × master) is in [0,1] and no louder than the mode's channel |
| `MoodMixer.PlaybackVolumeChannels` | app/components/TextToMusic.tsx:162-164 | a mode's playback volume changes with no channel but its own and the master; it is silent when either of those is 0 |
| `MoodMixer.LargeArcFlag` | app/components/TextToMusic.tsx:90 | the flag is 1 exactly when the value exceeds 0.5, and 0 otherwise |
| `MoodMixer.AfterUnload` | app/components/TextToMusic.tsx:155-157 | unloading keeps the sound object referenced, with the same asset and volume, in the unloaded state |
| `MoodMixer.Player.constructor` | app/components/TextToMusic.tsx:136-147 | starts with no mode, not loading, no error, no sound and every channel at 1.0 |
| `MoodMixer.Player.UpdateVolume` | app/components/TextToMusic.tsx:182-187 | sets one channel to the value, keeps the other five and all the other state |
| `MoodMixer.Player.BeginGenerate` | app/components/TextToMusic.tsx:149-152 | sets the selected mode, starts loading and clears the error before any audio call |
| `MoodMixer.Player.FinishGenerate` | app/components/TextToMusic.tsx:154-172 | the first failing audio call skips the rest and sets the fixed error message; on success the sound kept is the mode's asset at channel × master volume, playing; loading always ends false |
| `MoodMixer.Player.Generate` | app/components/TextToMusic.tsx:149-173 | the mode is selected; the error is cleared on success and set to the fixed message on failure; the resulting sound as in FinishGenerate; loading ends false |
| `MoodMixer.Player.Stop` | app/components/TextToMusic.tsx:175-180 | drops the sound only when one is held (and its unload succeeds); otherwise nothing changes |
| `MoodMixer.PlayPeacefulAtHalfMaster` | app/components/TextToMusic.tsx:158-166 | with master at 0.5, a successful generate of peaceful plays `sad.mp3` at volume 0.5, with no error |

## Left out

- Coordinates are integers, and the path text writes them in plain decimal. The touch events give JavaScript numbers, which can be fractional. How a JavaScript number is formatted into the template string is not modelled.
- Audio is not modelled: unloading, creating, setting the volume, playing and the unload on unmount (`TextToMusic.tsx:189-195`). These are calls into the audio library, and an `AudioResult` argument stands in for them. The library's own error text, and its logging, are not modelled.
- Asynchrony and React re-rendering. Each handler is one sequential step that sees the latest state. So the model does not show a handler reading a stale value captured by the render that created it. Examples are `isDrawing` in a move that comes before the re-render, and `sound` or `mixerVolumes` inside an awaited generate. The pan responder being rebuilt on every render is not modelled either. Generate is split into its part before the first await (`BeginGenerate`) and the rest (`FinishGenerate`), but one running between the two is not modelled.
- MoodMixer.Player.Stop: a failing unload rejects a promise that nothing handles. The model only keeps the sound. It does not model the unhandled rejection.
- The `try`/`catch` around the path update (`Paint.tsx:37-50`). The update is a pure string operation, so it cannot throw; its catch branch is not modelled.
- The pie volume control's trigonometry, and its conversion from angle to value (`TextToMusic.tsx:76-107`). These are floating-point `Math.cos/sin/atan2`. The rounding of percent labels (line 233) is left out too. Volumes are exact reals, not IEEE doubles.
- The mode buttons are disabled while loading (`TextToMusic.tsx:211`). This is a rendering attribute. It matters only when generate runs interleaved, which is not modelled.
- Rendering: the SVG paths, images, styles and palette buttons' highlight.
- `component/TextToMusic.tsx`, `component/MiniPiano.tsx`, `component/MiniPianoBoard.tsx`, `component/Piano.tsx` and the screen and navigation files are not part of this model. They are static asset tables, layout constants, platform orientation calls and routing.
- The image `source` is a bundled module handle returned by `require`. Here it is the asset's path as a string. The store's `persist` import is unused in the source, so the model has no persistence.
