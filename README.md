# DreamHome floor plan model

A Dafny model of the floor-plan part of the DreamHome voice home-design app.
DreamHome is a React front end. A user describes a home by voice or by text,
and the app shows a 2D floor plan of a placeholder layout. The model covers
three components:

- **`FloorPlanCanvas`**:
  - the room record and its two colour tables;
  - the fixed eight-room layout generator;
  - the `drawFloorPlan` routine, modelled as the list of 2D-context
    instructions it issues (`drawing.dfy`);
  - the zoom buttons (`zoom.dfy`);
  - the four legend columns (`legend.dfy`).
- **`TextInput`**: the suggestion lists and their language fallback, the
  submit guard (trim and clear), the Enter key, and the suggestion flag
  (`text_input.dfy`).
- **`VoiceRecorder`**: the `m:ss` clock text and the recording and playback
  flags. Each media object is reduced to a flag saying whether it is present
  (`voice_recorder.dfy`).

`text.dfy` models the three JavaScript string operations these components
rely on: decimal rendering of numbers, `padStart` and `trim`.

Modelling choices:

- The drawing routine is a `method` with the source's loops. It is proved
  equal to the function `FloorPlanInstructions`, and the drawing lemmas are
  stated about that function.
- Zoom is kept exactly, as an integer number of tenths in [5, 20]. The drawing
  routine takes it as an exact real.
- Room coordinates are integers. Derived values (extents, centres) are exact
  reals.
- The canvas, its 2D context, how far a recording start gets and the `onTextSubmit`
  callback are inputs or logs. The model does no I/O.

What the code has and has not:

- The room type is a closed union of six types. There is no unknown category
  and no default style.
- There is no layout parsing or validation and no parse or schema error. The
  only layout is the constant one.
- There are no door or window entities. The entrance and the three doors are
  fixed strokes at constant coordinates.
- A new layout does not reset the zoom. Only the reset button does.

## Model

| member | source | states |
|---|---|---|
| Rooms.StyleTablesInjective | src/components/FloorPlanCanvas.tsx:62-78 | both colour tables are total over the six room types and give different types different colours |
| Rooms.GenerateFloorPlan | src/components/FloorPlanCanvas.tsx:151-160 | the layout has eight rooms with ids '1'..'8', positive widths and heights, all inside the 600 by 500 canvas |
| Rooms.GeneratedIdsDistinct | src/components/FloorPlanCanvas.tsx:151-160 | the generated room ids are pairwise distinct |
| Rooms.GenerationIgnoresTranscription | src/components/FloorPlanCanvas.tsx:143-164 | the generated layout is the same whatever the transcription |
| Rooms.GeneratedLayoutOverlaps | src/components/FloorPlanCanvas.tsx:157-158 | Bathroom 1 overlaps Bedroom 2 and Bathroom 2 overlaps Bedroom 3, and the layout keeps them |
| Rooms.RoomsAfterTranscription | src/components/FloorPlanCanvas.tsx:166-170 | an empty transcription leaves the rooms as they are; a non-empty one, whatever its text, replaces them with the one fixed eight-room layout |
| Rooms.LaterTranscriptionsKeepLayout | src/components/FloorPlanCanvas.tsx:162-170 | once a layout has been generated, later transcriptions leave it unchanged |
| Zoom.ZoomedIn | src/components/FloorPlanCanvas.tsx:176-178 | zoom in adds one step of 0.2 and saturates exactly at 2.0 |
| Zoom.ZoomedOut | src/components/FloorPlanCanvas.tsx:180-182 | zoom out subtracts one step of 0.2 and saturates exactly at 0.5 |
| Zoom.Factor | src/components/FloorPlanCanvas.tsx:39 | a zoom in range is a scale factor between 0.5 and 2.0, equal to its tenths divided by ten |
| Zoom.ApplyKeepsRange | src/components/FloorPlanCanvas.tsx:176-186 | each of the three buttons keeps a zoom inside [0.5, 2.0] |
| Zoom.ApplyAllKeepsRange | src/components/FloorPlanCanvas.tsx:176-186 | any sequence of button presses keeps a zoom inside [0.5, 2.0] |
| Zoom.BoundsAreFixedPoints | src/components/FloorPlanCanvas.tsx:176-182 | repeated zoom in at 2.0 stays at 2.0; repeated zoom out at 0.5 stays at 0.5 |
| Zoom.InOutInverse | src/components/FloorPlanCanvas.tsx:176-182 | zoom out undoes a zoom in that did not saturate, and zoom in undoes a zoom out that did not saturate |
| Zoom.InOutNearBound | src/components/FloorPlanCanvas.tsx:176-182 | near the upper bound the round trip is not exact: 1.9 goes to 2.0 and back to 1.8 |
| Zoom.ZoomController.constructor | src/components/FloorPlanCanvas.tsx:24 | the zoom starts at 1.0 |
| Zoom.ZoomController.Zoom | src/components/FloorPlanCanvas.tsx:39 | the current zoom factor lies in [0.5, 2.0] |
| Zoom.ZoomController.ZoomIn | src/components/FloorPlanCanvas.tsx:176-178 | the new zoom is the saturating step up of the old one, never smaller, and stays in range |
| Zoom.ZoomController.ZoomOut | src/components/FloorPlanCanvas.tsx:180-182 | the new zoom is the saturating step down of the old one, never larger, and stays in range |
| Zoom.ZoomController.ResetView | src/components/FloorPlanCanvas.tsx:184-186 | reset sets the zoom to 1.0 whatever it was |
| Drawing.FloorPlanInstructions | src/components/FloorPlanCanvas.tsx:27-32 | the routine draws something exactly when both the canvas and its 2D context exist |
| Drawing.NoSurfaceNoDrawing | src/components/FloorPlanCanvas.tsx:28-32 | without a canvas, or without a 2D context, nothing is drawn |
| Drawing.GridFromExact | src/components/FloorPlanCanvas.tsx:48-59 | a grid loop draws exactly the lines at 0, 20, 40, ... below its bound, in increasing order, each over the full other extent |
| Drawing.GridLineCount | src/components/FloorPlanCanvas.tsx:48-59 | a grid loop draws n lines when 20(n-1) < bound <= 20n |
| Drawing.CanvasGridCounts | src/components/FloorPlanCanvas.tsx:48-59 | the 600 by 500 canvas gets a 30 by 25 grid at zoom 1.0 and a 15 by 13 grid at zoom 2.0 |
| Drawing.BackdropLayout | src/components/FloorPlanCanvas.tsx:35-59 | before the rooms: clear, save, scale, the background over width/zoom by height/zoom, then the vertical grid lines below width/zoom and the horizontal ones below height/zoom |
| Drawing.DrawGridLines | src/components/FloorPlanCanvas.tsx:46-59 | the grid loop issues exactly `GridFrom(axis, 0, along, across)`, one line every 20 units below the bound |
| Drawing.DisplayUnits | src/components/FloorPlanCanvas.tsx:104-105 | `(n + 5) div 10` is `Math.round(n / 10)` for every integer n |
| Drawing.DimensionsLabelExample | src/components/FloorPlanCanvas.tsx:104-108 | a 40 by 35 room is labelled `4' × 4'` and a 140 by 120 room `14' × 12'` |
| Drawing.RoomsInstrsAt | src/components/FloorPlanCanvas.tsx:81-109 | the room pass issues four instructions per room, with room i at positions 4i..4i+3 |
| Drawing.RoomsInstrsSnoc | src/components/FloorPlanCanvas.tsx:81-109 | one more room adds its four instructions at the end of the pass |
| Drawing.RoomsInstrsPrefix | src/components/FloorPlanCanvas.tsx:81-109 | the pass over the first i+1 rooms is the pass over the first i followed by room i |
| Drawing.DrawRoom | src/components/FloorPlanCanvas.tsx:82-108 | one room gets its type's fill and border (line width 2) over its rectangle, its name at the centre moved up 8, and its rounded dimensions at the centre moved down 8 |
| Drawing.DrawRooms | src/components/FloorPlanCanvas.tsx:81-109 | the `forEach` loop issues exactly `RoomsInstrs(rooms)`, four instructions per room in list order |
| Drawing.DrawDoors | src/components/FloorPlanCanvas.tsx:111-138 | the door section is the entrance followed by one stroke per internal door |
| Drawing.DrawFloorPlan | src/components/FloorPlanCanvas.tsx:27-141 | the whole routine issues exactly `FloorPlanInstructions(surface, rooms, zoom)`, for every surface, room list and zoom |
| Drawing.FloorPlanFrame | src/components/FloorPlanCanvas.tsx:34-140 | on a ready surface the list is the backdrop, then four instructions per room, then the fixed epilogue |
| Drawing.GroupOfConcat | src/components/FloorPlanCanvas.tsx:81-109 | the first room's four instructions come first in the pass, and each later room's group moves by four positions |
| Drawing.MiddleSlice | src/components/FloorPlanCanvas.tsx:80-111 | a slice of the room part of the drawing is the same slice of the room pass |
| Drawing.GroupsInMiddle | src/components/FloorPlanCanvas.tsx:80-111 | the room groups keep their places, shifted by the backdrop length, in the whole drawing |
| Drawing.RoomsDrawnInOrder | src/components/FloorPlanCanvas.tsx:80-109 | rooms are drawn in list order, room i right after the backdrop at offset 4i |
| Drawing.EpilogueFixed | src/components/FloorPlanCanvas.tsx:111-140 | after the rooms: the entrance (150,50) to (150,35), then strokes (x,y) to (x+20,y) at (250,100), (190,200) and (350,200), all in #374151 at width 3, then the restore |
| Drawing.DoorsIndependentOfRooms | src/components/FloorPlanCanvas.tsx:111-138 | two drawings with different rooms agree on everything before the rooms and everything after them |
| Legend.Select | src/components/FloorPlanCanvas.tsx:272-314 | a column holds no more rooms than the list, and only rooms of its types |
| Legend.ExactlyOneBucket | src/components/FloorPlanCanvas.tsx:272-314 | every room type belongs to exactly one of the four columns |
| Legend.SelectIsSubsequence | src/components/FloorPlanCanvas.tsx:272-314 | each column is an order-preserving subsequence of the rooms |
| Legend.SelectMembership | src/components/FloorPlanCanvas.tsx:272-314 | a room is in a column if and only if it is in the list and its type belongs to that column |
| Legend.SelectCount | src/components/FloorPlanCanvas.tsx:272-314 | a column holds each room as often as the list does when the room's type belongs to the column, and not at all otherwise |
| Legend.LegendPartitions | src/components/FloorPlanCanvas.tsx:265-320 | the four columns together hold each room exactly as often as the list does |
| Legend.LegendCounts | src/components/FloorPlanCanvas.tsx:265-320 | the lengths of the four columns add up to the room count |
| Legend.LegendExample | src/components/FloorPlanCanvas.tsx:265-320 | bedroom, bedroom, kitchen, garden group as two bedrooms, one kitchen, no bathroom and one other |
| TextInput.CurrentSuggestions | src/components/TextInput.tsx:53 | "hi" selects the Hindi list and every other code, unknown ones included, the English list; each has six entries |
| TextInput.ShownSuggestions | src/components/TextInput.tsx:71 | exactly the first four suggestions of the current list are shown |
| TextInput.Submission | src/components/TextInput.tsx:35-36 | nothing is handed on exactly when the text is all whitespace; otherwise the handed-on text is non-empty and already trimmed |
| TextInput.TextInputState.constructor | src/components/TextInput.tsx:31-32 | the text starts empty, the suggestions start shown, and nothing has been submitted |
| TextInput.TextInputState.SubmitEnabled | src/components/TextInput.tsx:110-113 | the submit button is enabled if and only if the text is not all whitespace |
| TextInput.TextInputState.HandleSubmit | src/components/TextInput.tsx:34-39 | non-blank text: the trimmed text is handed on once and the text is cleared; blank text: nothing is handed on and the text is unchanged |
| TextInput.TextInputState.HandleKeyPress | src/components/TextInput.tsx:41-46 | Enter without Shift suppresses the default and submits; Shift+Enter and every other key change nothing |
| TextInput.TextInputState.HandleChange | src/components/TextInput.tsx:91 | typing replaces the text and nothing else |
| TextInput.TextInputState.HandleSuggestionClick | src/components/TextInput.tsx:48-51 | a clicked suggestion becomes the text, the suggestions are hidden, and nothing is submitted |
| TextInput.TextInputState.HandleFocus | src/components/TextInput.tsx:95 | focusing the field hides the suggestions and changes nothing else |
| TextInput.TextInputState.ToggleSuggestions | src/components/TextInput.tsx:101-103 | the button flips the suggestions flag and changes nothing else |
| Text.NatToString | src/components/VoiceRecorder.tsx:156 | the decimal text of a number is a non-empty digit string without a leading zero, one digit long exactly below ten |
| Text.NatToStringRoundTrip | src/components/VoiceRecorder.tsx:156 | reading the decimal text back gives the number |
| Text.IntToString | src/components/FloorPlanCanvas.tsx:108 | a non-negative number is rendered as digits that read back as the number, with no leading zero; a negative one as a minus sign before digits that read back as its magnitude |
| Text.PadStart | src/components/VoiceRecorder.tsx:156 | `padStart` gives at least the target length, keeps the string as its suffix, and fills the front with the pad character |
| Text.TrimStart | src/components/TextInput.tsx:35 | the result is a suffix of the input; what was removed is whitespace; what remains does not start with whitespace |
| Text.TrimEnd | src/components/TextInput.tsx:35 | the result is a prefix of the input; what was removed is whitespace; what remains does not end with whitespace |
| Text.Trim | src/components/TextInput.tsx:35 | the trimmed text neither starts nor ends with whitespace |
| Text.WhitespaceAroundSlices | src/components/TextInput.tsx:35 | cutting whitespace off the front and then off the back leaves an infix with only whitespace around it |
| Text.TrimIsInfix | src/components/TextInput.tsx:35 | the input is the trimmed text with only whitespace added at its two ends |
| Text.TrimEmptyIffBlank | src/components/TextInput.tsx:35 | the trimmed text is empty if and only if the input is all whitespace |
| Text.TrimIdempotent | src/components/TextInput.tsx:36 | trimming twice is trimming once |
| VoiceRecorder.FormatTime | src/components/VoiceRecorder.tsx:153-157 | the clock text has at least four characters, with the colon third from the end |
| VoiceRecorder.MinutesSecondsSplit | src/components/VoiceRecorder.tsx:154-155 | minutes times 60 plus seconds is the count, with the seconds below 60 |
| VoiceRecorder.PadKeepsValue | src/components/VoiceRecorder.tsx:156 | padding a one- or two-digit text to two digits keeps its value |
| VoiceRecorder.ClockParts | src/components/VoiceRecorder.tsx:156 | a minutes text, a colon and a two-digit seconds text read back as the two numbers |
| VoiceRecorder.FormatTimeRoundTrip | src/components/VoiceRecorder.tsx:153-157 | the field before the colon reads as the whole minutes and the two digits after it as the remaining seconds |
| VoiceRecorder.ClockReadsCount | src/components/VoiceRecorder.tsx:153-157 | minutes field times 60 plus seconds field of such a clock text is the count |
| VoiceRecorder.FormatTimeInjective | src/components/VoiceRecorder.tsx:153-157 | different counts give different clock texts |
| VoiceRecorder.SecondsFieldTwoDigits | src/components/VoiceRecorder.tsx:156 | the seconds field is always two digits, with a leading '0' below ten seconds |
| VoiceRecorder.PadOneDigit | src/components/VoiceRecorder.tsx:156 | a single digit is padded to '0' followed by that digit |
| VoiceRecorder.FormatTimeZero | src/components/VoiceRecorder.tsx:153-157 | 0 seconds read "0:00" |
| VoiceRecorder.FormatTimeOneMinuteFive | src/components/VoiceRecorder.tsx:153-157 | 65 seconds read "1:05" |
| VoiceRecorder.FormatTimeTenMinutes | src/components/VoiceRecorder.tsx:153-157 | 600 seconds read "10:00" |
| VoiceRecorder.RecorderState.constructor | src/components/VoiceRecorder.tsx:13-25 | the recorder starts idle: not recording, time 0, not playing, no recorder, no blob, no audio element, no audio context |
| VoiceRecorder.RecorderState.StartRecording | src/components/VoiceRecorder.tsx:47-108 | a complete start sets recording, resets the time to 0 and opens a recorder and an audio context; a refused microphone changes nothing; a throw after `new AudioContext()` leaves that context open, and the recorder set if it was created, while the recording flag, time and timer stay as they were |
| VoiceRecorder.RecorderState.Tick | src/components/VoiceRecorder.tsx:98-100 | each timer firing adds exactly one second and changes nothing else |
| VoiceRecorder.RecorderState.StopRecording | src/components/VoiceRecorder.tsx:110-130 | with a recorder while recording: recording stops and the timer, monitor and audio context are released; otherwise nothing changes |
| VoiceRecorder.RecorderState.RecorderStopped | src/components/VoiceRecorder.tsx:68-70 | the recorder's stop callback stores the blob and changes nothing else |
| VoiceRecorder.RecorderState.PlayRecording | src/components/VoiceRecorder.tsx:132-144 | with a blob and not playing, playback starts on a new audio element; otherwise nothing changes |
| VoiceRecorder.RecorderState.PausePlayback | src/components/VoiceRecorder.tsx:146-151 | after a pause nothing is playing, and the recording state and the audio context are untouched |
| VoiceRecorder.RecorderState.PlaybackEnded | src/components/VoiceRecorder.tsx:139-142 | the end-of-playback callback stops playback and changes nothing else |

## Left out

- Pixels, fonts and text metrics. The model stops at the instruction list.
- Context state: `textAlign` and `textBaseline` (FloorPlanCanvas.tsx:94-95) are not carried by the instructions. `save`/`restore` are plain markers, and their stack is not modelled.
- Zoom float drift: the model steps exactly by 0.2. The source adds 0.2 in floating point, which can give values such as 1.9999999999999998, and at such a value the grid loop would draw one more line.
- Zoom.ZoomController: does not model IEEE-754 rounding of the repeated `+ 0.2` and `- 0.2`, for the reason above.
- Asynchronous generation: the 3-second `setTimeout` and the `isGenerating` spinner. Generation is one atomic replacement of the rooms.
- Rooms.RoomsAfterTranscription: states the case split of the effect hook but not the delay or re-entrancy of overlapping generations, which have no sequential meaning.
- Download: the anchor element and `toDataURL`, which are browser I/O. The file name is `floor-plan.png`.
- Media and timers of the recorder: `getUserMedia`, `MediaRecorder`, `AudioContext` and the analyser, `FileReader`, `setInterval`, `requestAnimationFrame`, the simulated transcription callback and the audio level. These are browser services. Each is reduced to a presence flag or to the `StartOutcome` parameter, which says how far the start got.
- The legend is rendered only when there is at least one room (FloorPlanCanvas.tsx:265). Legend.BuildLegend computes the columns for any list, and for no rooms they are all empty.
- The random bar heights of the recording visualisation (`Math.random`).
- The cleanup on unmount (VoiceRecorder.tsx:27-33). It has no effect on the modelled state.
- VoiceRecorder.RecorderState.Tick: requires that the timer is running, because a tick is only delivered by a live interval. The model does not reason about a stale interval left by a repeated start.
- TextInput.CurrentSuggestions: a language code that names an inherited JavaScript object property (such as `constructor`) would not fall back to English in the source. Codes are plain strings here.
- The placeholder text and the Hindi and English UI captions, which are display-only.
- `App.tsx` wiring, which passes `onSubmit`/`language` where `TextInput` expects `onTextSubmit`/`selectedLanguage`. `TextInput` is modelled by its own interface. App.tsx is not part of this model.
- `CodeInput.tsx`, `DrawingCanvas.tsx`, `View3D.tsx`, `InputModeSelector.tsx`, `LanguageSelector.tsx` and `ViewToggle.tsx` are not part of this model. They hold JSON library calls, live-canvas drawing, placeholders or static option lists.
