# Photo booth capture logic in Dafny

This project models the two state machines of a browser photo booth. They come
from its two React components, with the rendering and device calls removed.

- **Studio** (`src/components/PhotoStudio.jsx`). This is the fixed catalog of
  seven filters and the two pure name mappings: the preview CSS class and the
  canvas filter parameters. It also covers the three-shot capture sequence.
  Each shot shows the countdown "3", "2", "1", "Smile 😄", then tries a
  capture that is skipped when the video cannot deliver a frame, then clears
  the overlay and pauses. Finally it covers the reshoot reset and the
  filter/capture buttons, which are disabled while a sequence runs.
- **Booth** (`src/components/PhotoBooth.jsx`). This is the landing screen:
  inserting the coin, the guarded coin click that opens the curtain, the end
  of the 1200 ms transition, the camera error/load/retry handlers, the camera
  check on mount, the footer status line and the switch to the studio.

Files:
- `wrappers.dfy` holds `Option`, standing for JavaScript's `null`.
- `filters.dfy` (module `Filters`) holds the catalog, `ToLower` and the two
  mappings, with their lemmas.
- `studio.dfy` (module `Studio`) holds the class `PhotoStudio` and the
  specification functions of a capture sequence: `Captures`, `SequenceSteps`
  and the projections `Shown` and `Attempts`, with their lemmas.
- `booth.dfy` (module `Booth`) holds the class `PhotoBooth` and the pure
  `StatusText`.

Modelling choices:
- Each component's `useState` hooks become fields of a class. Each event
  handler becomes a method with a `modifies this` clause. `Valid()` is the
  invariant every handler keeps.
- The camera is an oracle. `StartPhotoSequence` receives one `Video` per shot:
  either absent, or attached with an HTML `readyState` and an opaque frame.
  `takePhoto` captures only when `readyState >= 2`.
- A shot whose frame is not ready is skipped and never retried, so a
  finished session can hold fewer than three photos. The model follows the
  code here, not the idea that a session always ends with three shots.
- The JPEG data URL of a shot is an opaque `Snapshot`: the frame and the
  canvas filter string it was drawn through.
- Delays are plain steps. A ghost `trace` records every step a sequence takes:
  each countdown value shown (and each clearing), each 1000 ms and
  400 ms delay, and each capture attempt with the outcome of its guard.
- The booth's 1200 ms timer is the method `CompleteTransition`. It may only be
  called while `isTransitioning` holds, because the only timer is the one a
  click starts and only that timer clears the flag.
- The mount check's outcome is a `Probe` parameter: unsupported, granted or
  refused.
- Running a sequence is one atomic method. So between handler calls
  `isCapturing` is false in every state reachable from the constructor. The
  "disabled while capturing" guards are stated against any state that
  satisfies `Valid()`.

## Model

| member | source | states |
|---|---|---|
| Filters.CatalogWellFormed | src/components/PhotoStudio.jsx:7-15 | the catalog has 7 entries that stay distinct when case is ignored; the initial selection "90s" is its first entry and a member |
| Filters.ToLower | src/components/PhotoStudio.jsx:35 | the lower-cased string has the input's length, and each character is its own character lower-cased |
| Filters.LowerCatalogNames | src/components/PhotoStudio.jsx:7-15 | lower-casing each catalog name gives the lower-case name used by the `switch` cases |
| Filters.FilterClassOfCatalog | src/components/PhotoStudio.jsx:34-43 | each catalog entry gets its reference preview class: "_90s", "_2000s", then the lower-cased name |
| Filters.FilterClassPrefix | src/components/PhotoStudio.jsx:34-43 | for every input, the class is the lower-cased name, prefixed with "_" exactly when that name is "90s" or "2000s" |
| Filters.FilterClassIgnoresCase | src/components/PhotoStudio.jsx:35 | inputs equal up to case get the same class, and lower-casing the input first changes nothing |
| Filters.CatalogClassesDistinct | src/components/PhotoStudio.jsx:34-43 | the catalog entries get pairwise distinct classes, and none of them starts with a digit |
| Filters.CanvasFilter | src/components/PhotoStudio.jsx:54-79 | the filter parameters differ from "none" exactly when the lower-cased name is a lower-cased catalog name |
| Filters.CanvasFilterOfCatalog | src/components/PhotoStudio.jsx:54-79 | each catalog entry gets its own parameter string from the `switch` |
| Filters.CatalogCanvasFiltersDistinct | src/components/PhotoStudio.jsx:54-79 | the catalog entries get pairwise distinct parameters, none of them "none" |
| Filters.CanvasFilterIgnoresCase | src/components/PhotoStudio.jsx:55 | inputs equal up to case get the same parameters |
| Filters.CanvasFilterRecognizes | src/components/PhotoStudio.jsx:54-79 | a name gets real parameters if and only if it equals a catalog name up to case; every other name gets "none" |
| Studio.Captures | src/components/PhotoStudio.jsx:102-110 | a sequence keeps at most one photo per shot, each tagged with the selected filter and drawn with that filter's parameters |
| Studio.CapturesCount | src/components/PhotoStudio.jsx:47 | the number of photos is the number of shots whose frame was ready |
| Studio.CapturesFullOrEmpty | src/components/PhotoStudio.jsx:47 | there is one photo per shot if and only if every frame was ready, and no photo if and only if none was |
| Studio.CapturesAppend | src/components/PhotoStudio.jsx:85-88 | photos keep shot order: those of earlier shots come first, with none lost or duplicated |
| Studio.CountdownOrder | src/components/PhotoStudio.jsx:102-110 | every shot shows "3", "2", "1", "Smile 😄" in that order, then clears the countdown; nothing else is shown |
| Studio.OneAttemptPerShot | src/components/PhotoStudio.jsx:107 | a sequence attempts exactly one capture per shot, in shot order, each with the readiness of that shot's frame |
| Studio.AttemptFollowsSmile | src/components/PhotoStudio.jsx:106-108 | every capture attempt comes right after the smile token was held for 1000 ms, and is followed at once by clearing the countdown |
| Studio.PhotoStudio.constructor | src/components/PhotoStudio.jsx:25-29 | initial state: filter "90s", no photos, not capturing, no countdown, no result |
| Studio.PhotoStudio.SelectFilter | src/components/PhotoStudio.jsx:156-160 | a catalog filter is selected unless a sequence runs, in which case nothing changes |
| Studio.PhotoStudio.TakePhoto | src/components/PhotoStudio.jsx:45-89 | photos are unchanged when the video is absent or its readyState is below 2; otherwise exactly one photo, tagged with the selected filter, is appended at the end |
| Studio.PhotoStudio.CountdownStep | src/components/PhotoStudio.jsx:91-95 | shows the given token and holds it for 1000 ms; nothing else changes |
| Studio.PhotoStudio.Shoot | src/components/PhotoStudio.jsx:103-109 | one loop pass: the four countdown steps, one capture attempt, the countdown cleared, a 400 ms pause |
| Studio.PhotoStudio.StartPhotoSequence | src/components/PhotoStudio.jsx:97-114 | ends not capturing, showing the result, with no countdown and the same filter; the photos are exactly the captures of the ready frames (at most 3); the trace gains exactly the three shots' steps |
| Studio.PhotoStudio.PressCapture | src/components/PhotoStudio.jsx:182-186 | the capture button starts a sequence only when none runs; otherwise nothing changes |
| Studio.PhotoStudio.HandleReshoot | src/components/PhotoStudio.jsx:116-119 | photos emptied and the result hidden; filter, capturing flag and countdown unchanged |
| Booth.StatusText | src/components/PhotoBooth.jsx:210-218 | for each of the five footer messages, the exact flag condition that yields it (error, then loading, then transitioning, then coin, then idle); so exactly one message is produced |
| Booth.PhotoBooth.Status | src/components/PhotoBooth.jsx:210-218 | the footer always shows one of the five messages |
| Booth.PhotoBooth.constructor | src/components/PhotoBooth.jsx:7-12 | initial state: no coin, curtain closed, landing screen, no error, camera loading (so the preview is not mounted), no transition |
| Booth.PhotoBooth.HandleInsertClick | src/components/PhotoBooth.jsx:15-21 | sets the coin flag (so it is idempotent) and changes no other flag; the studio, once shown, stays shown |
| Booth.PhotoBooth.HandleCoinClick | src/components/PhotoBooth.jsx:23-27 | ignored while a transition runs; otherwise starts the transition and opens the curtain; coin, studio and camera flags unchanged, so the studio, once shown, stays shown |
| Booth.PhotoBooth.CompleteTransition | src/components/PhotoBooth.jsx:30-33 | the timer's end sets `showStudio`, so the studio view replaces the landing screen, and ends the transition; coin, curtain and camera flags unchanged |
| Booth.PhotoBooth.HandleCameraError | src/components/PhotoBooth.jsx:36-40 | sets the preview's access-denied error and stops loading; coin, curtain, studio and transition flags unchanged; the studio, once shown, stays shown |
| Booth.PhotoBooth.HandleCameraLoad | src/components/PhotoBooth.jsx:42-46 | clears the error and stops loading; the other flags unchanged; the studio, once shown, stays shown |
| Booth.PhotoBooth.HandleRetryCamera | src/components/PhotoBooth.jsx:48-51 | clears the error and starts loading; the live preview, replaced by the error display that holds the retry button, stays unmounted, and the footer stays on "Initializing Camera..."; the other flags unchanged; the studio, once shown, stays shown |
| Booth.PhotoBooth.CheckCamera | src/components/PhotoBooth.jsx:54-78 | stops loading in every case; sets "Camera not supported in this browser" when `getUserMedia` is missing, the allow-permissions denial when the probe fails, and leaves the error alone when it succeeds; the studio, once shown, stays shown |

Every booth handler ensures that a studio view it starts from is still the
studio view afterwards: nothing sets `showStudio` back to false. `Valid()` of
both classes is kept by every handler.

The retry button is a dead end in the code as written. The button is shown
only on the error display, which stands in place of the live preview.
`HandleRetryCamera` sets loading again, so the loading display replaces the
error display and the preview stays unmounted (`PreviewMounted()` is false). Only that preview calls `handleCameraLoad` and `handleCameraError`,
and the mount check runs once only. So in the source nothing clears the
loading state after a retry, and the footer keeps showing
"Initializing Camera...".

## Left out

- Filters.ToLower: lower-cases the ASCII letters A–Z only. JavaScript's
  `toLowerCase` also lower-cases other Unicode letters, so names with
  non-ASCII letters may get a different class or parameters than in the
  browser. Catalog names are ASCII, so every catalog result is exact.
- The webcam (`react-webcam`), `getUserMedia` and stopping the probe stream
  are device I/O. They are replaced by the `Video` oracle and the `Probe`
  outcome.
- Canvas drawing, `ctx.filter` rendering and `toDataURL` JPEG encoding are
  foreign rendering calls. The image is the opaque `Snapshot`.
- `handleDownload` (`html2canvas`, the `StudioStrip.jpg` link click) is a
  rendering and foreign-library call.
- The result caption's `toLocaleDateString("en-IN")` date is a locale library
  call.
- `setTimeout` and the 1000/400/1200 ms delays are real time. The 1000 ms
  and 400 ms delays become `Wait` steps in the trace; the 1200 ms timer
  becomes the `CompleteTransition` step. The wait for the next animation frame
  in `countdownStep` (`requestAnimationFrame`) is dropped and has no step. Interleaving other events with the asynchronous
  sequence is not modelled, because the methods run atomically.
- The back button (`onBack` or `window.location.reload`), `navigator.vibrate`,
  `console` logging, `framer-motion`, the JSX markup and the CSS classes other
  than the filter mapping are UI and host-environment effects.
- Which elements are mounted is not modelled as a guard. The filter and
  capture buttons are absent on the result screen, and the coin appears only
  after insertion. `HandleCameraLoad` and `HandleCameraError` are callbacks of
  the live preview. That preview is mounted only while there is no camera
  error and loading is over (`PreviewMounted()`). The model still lets them be
  called in any valid state, so it admits a retry followed by a load, which
  the source cannot reach. All handlers are modelled as callable in any
  valid state.
- Each React handler reads the state of the render it was created in. Two
  coin clicks (or two capture clicks) that land before a re-render would
  both pass the guard. The model applies each handler to the current state.
- The booth renders `<PhotoStudio />` without an `onBack` callback. The
  studio's own state is modelled separately by `Studio.PhotoStudio`, starting
  from its constructor.
