# LogMessage: the scrolling log container, in Dafny

`LogMessage/LogMessage.js` is an RPG Maker MZ plugin that shows a small
scrolling text log inside a fixed rectangle of the map screen. Plugin
commands create the log (`init`), add a line (`add`), hide and show it,
clear it and remove it. Every frame the engine calls the container's
`update`. While the newest line hangs below the bottom of the rectangle,
`update` moves every line up by at most `scrollSpeed` pixels. Once the
oldest line has gone fully above the top, `update` drops it.

This project models that behaviour as pure functions over immutable values
and proves its properties:

- `Params` holds the four plugin parameters `lineHeight`, `fontSize`,
  `iconSize` and `scrollSpeed`. A `Config` is a parameter record whose four
  values are positive. The plugin's defaults are 36, 28, 32 and 4.
- `LogContainer` holds the `LogMessageContainer` state and its operations.
  - The state is the viewport given to `init`, the child sprites and the
    insertion cursor `yPos`. Each child sprite is reduced to an `Entry`: its
    y position and the text its one-line bitmap was drawn from.
  - The operations are `New` (the constructor), `Append` (the container's
    `show`), `ScrollAmount` and `Update` (the container's `update`), and
    `Clear`.
  - `Updates` is `n` frames in a row.
- `FrameFacts` states what one frame does to the entry list, entry by entry.
- `ScrollProofs` proves the layout invariant: lines are one `lineHeight`
  apart and the cursor sits one line below the newest line. It also proves
  that lines expire oldest first, that a frame moves everything by the same
  amount, and that a cleared log stays still.
- `Settling` follows repeated frames with no new lines. The newest line
  scrolls until its bottom edge is exactly on the bottom of the viewport.
  After that, expired lines drop off the head one per frame until nothing
  changes.
- `Commands` holds the six plugin command handlers as transitions of the
  scene's optional container reference, plus the engine's per-frame call
  to `update`.
- `IconLayout` holds the integer arithmetic of inline icons (`\I[n]`): the
  atlas cell an icon index names, where the icon is drawn, and how far the
  text cursor advances. It also holds the vertical centring of icons and
  text within a line.
- `Placement` covers the search `init` makes for the map's spriteset. See
  Findings.
- `Scenarios` works through concrete runs with the default parameters.

## Model

| member | source | states |
|---|---|---|
| LogContainer.New | LogMessage/LogMessage.js:157-163 | a new container keeps the viewport it was given, has no lines, has its cursor at 0, and is visible |
| LogContainer.Append | LogMessage/LogMessage.js:197-206 | the new line is added last, at the old cursor and with the given text; the earlier lines are unchanged; the cursor moves down exactly one line height; nothing else changes |
| LogContainer.ScrollAmount | LogMessage/LogMessage.js:175-182 | the per-frame movement is between 0 and `scrollSpeed`; it is 0 exactly when there are no lines or the newest line's bottom is at or above the viewport's bottom; otherwise it never exceeds the overflow and is either the full speed or the whole overflow |
| LogContainer.EvictHead | LogMessage/LogMessage.js:190-193 | at most one line is removed, and one is removed exactly when the list is non-empty and its head has expired |
| LogContainer.Update | LogMessage/LogMessage.js:174-194 | the cursor moves up by exactly the scroll amount; the frame removes at most one line; the viewport and visibility do not change |
| LogContainer.Clear | LogMessage/LogMessage.js:208-211 | clearing leaves no lines and the cursor at 0, and nothing else changes |
| LogContainer.Shift | LogMessage/LogMessage.js:184-187 | moving the lines keeps their number; `FrameFacts.ShiftAt` states their contents |
| FrameFacts.ShiftAt | LogMessage/LogMessage.js:184-187 | moving the lines keeps each line in its place and keeps its text, `d` pixels higher |
| FrameFacts.FrameAt | LogMessage/LogMessage.js:184-193 | after a frame, line `i` is the old line `i + k`, moved up by the scroll amount, where `k` is the number of lines the frame removed |
| FrameFacts.FrameMovesAndEvicts | LogMessage/LogMessage.js:184-193 | one line is removed exactly when the oldest line, once moved, is fully above the top; every surviving line keeps its text and order and moves up by the same amount |
| ScrollProofs.SpacedFromHead | LogMessage/LogMessage.js:199-205 | in an evenly spaced list, line `i` lies exactly `i` line heights below the oldest line |
| ScrollProofs.SpacedIffProgression | LogMessage/LogMessage.js:199-205 | neighbours being one line height apart is equivalent to the positions forming an arithmetic progression from the head, in both directions |
| ScrollProofs.CursorDeterminesLayout | LogMessage/LogMessage.js:199-205 | under the layout invariant, line `i` sits exactly `count - i` line heights above the cursor |
| ScrollProofs.SpacedIsOrdered | LogMessage/LogMessage.js:199-205 | under even spacing an older line is strictly higher than a newer one |
| ScrollProofs.ExpiredArePrefix | LogMessage/LogMessage.js:190-193 | if a line has expired then every older line has too, so checking only the head never leaves an expired line behind a live one |
| ScrollProofs.SpacedAfterMove | LogMessage/LogMessage.js:184-193 | dropping lines from the head and moving the rest by one common distance keeps even spacing |
| ScrollProofs.AppendPreservesLayout | LogMessage/LogMessage.js:197-206 | adding a line keeps the layout invariant: even spacing, and the cursor one line below the newest line |
| ScrollProofs.UpdatePreservesLayout | LogMessage/LogMessage.js:184-193 | a frame keeps the layout invariant |
| ScrollProofs.ClearEstablishesLayout | LogMessage/LogMessage.js:208-211 | clearing establishes the layout invariant from any state |
| ScrollProofs.UpdateKeepsRelativeSpacing | LogMessage/LogMessage.js:184-188 | a frame does not change the distance between any two surviving lines, nor between any line and the cursor |
| ScrollProofs.FlushFrameOnlyEvicts | LogMessage/LogMessage.js:177-193 | once the newest line is inside the viewport, a frame moves nothing; it either changes nothing or drops an expired head |
| ScrollProofs.ClearedStaysIdle | LogMessage/LogMessage.js:175-193 | after `clear`, any number of frames leave the container exactly as cleared |
| Settling.UpdatesPreserveLayout | LogMessage/LogMessage.js:174-194 | the layout invariant holds after any number of frames |
| Settling.UpdatesChain | LogMessage/LogMessage.js:174-194 | a chain of containers, each one frame after the previous, ends at the state that many frames after its first |
| Settling.UpdatesSnoc | LogMessage/LogMessage.js:174-194 | `n` frames followed by one more is `n + 1` frames |
| Settling.UpdateKeepsNewest | LogMessage/LogMessage.js:177-193 | while the newest line is not above the viewport's bottom, a frame keeps it, and the overflow shrinks by exactly the scroll amount |
| Settling.OverflowAfter | LogMessage/LogMessage.js:179-188 | while the overflow lasts, each frame takes off a full `scrollSpeed`; after `k` such frames the overflow and the cursor are both `k * scrollSpeed` less |
| Settling.FramesToFlush | LogMessage/LogMessage.js:179-181 | the number of frames needed to scroll away an overflow `o` is the least `n` with `n * scrollSpeed >= o` |
| Settling.Converges | LogMessage/LogMessage.js:179-181 | with no new lines, an overflowing log scrolls until its newest line's bottom edge lies exactly on the viewport's bottom edge; the cursor has moved up by exactly the original overflow, and scrolling has stopped |
| Settling.NotFlushBefore | LogMessage/LogMessage.js:179-181 | on every frame before that point the newest line still overflows, so the flush position is not reached early |
| Settling.StillStaysStill | LogMessage/LogMessage.js:174-194 | a state that one frame leaves unchanged is left unchanged by any number of frames |
| Settling.FlushFrame | LogMessage/LogMessage.js:190-193 | in the flush position a frame either changes nothing or drops one expired head, and the result is again flush and evenly spaced |
| Settling.StillRests | LogMessage/LogMessage.js:174-194 | a state one frame leaves unchanged is at rest as itself |
| Settling.EvictedRests | LogMessage/LogMessage.js:190-193 | dropping an expired head does not change where the rest of the log comes to rest |
| Settling.SettlesAfterEvictions | LogMessage/LogMessage.js:190-193 | from the flush position, after as many frames as there are lines, the log no longer changes; the lines dropped are an expired prefix, the first line kept has not expired, and the cursor and viewport are unchanged |
| Settling.ComesToRest | LogMessage/LogMessage.js:174-194 | every evenly spaced log with a viewport of positive height stops scrolling after `FramesToSettle` frames, and then comes to rest for good after at most one more frame per line |
| Commands.Step | LogMessage/LogMessage.js:102-154 | only a repeated `init` reports an error; afterwards the scene has no container exactly when the command was `remove`, or when there was none and the command was not `init` |
| Commands.Frame | LogMessage/LogMessage.js:174-194 | a frame neither creates nor removes the scene's container, and when there is one it is replaced by its `update`, whether shown or hidden |
| Commands.StepPreservesHealthy | LogMessage/LogMessage.js:102-154 | every command keeps the layout invariant of the scene's container |
| Commands.FramePreservesHealthy | LogMessage/LogMessage.js:174-194 | every frame keeps the layout invariant of the scene's container |
| Commands.ReplayPreservesHealthy | LogMessage/LogMessage.js:102-154 | any interleaving of commands and frames keeps the layout invariant |
| Commands.InitRejectedWhenPresent | LogMessage/LogMessage.js:102-106 | `init` with a container already present reports the error and leaves that container exactly as it was |
| Commands.CommandsIgnoredWithoutContainer | LogMessage/LogMessage.js:129-151 | without a container, `add`, `hide`, `show`, `clear` and `remove` change nothing and report nothing |
| Commands.RemoveThenInit | LogMessage/LogMessage.js:149-163 | after `remove`, a following `init` on a map scene succeeds silently, with an empty visible container whose cursor is at 0 and with the viewport `init` was given |
| Commands.VisibilityIdempotent | LogMessage/LogMessage.js:134-142 | `hide` and `show` only set the visibility flag, and doing either twice is the same as doing it once |
| Commands.HiddenKeepsScrolling | LogMessage/LogMessage.js:134-137 | a hidden container scrolls and removes lines on a frame exactly as a shown one does |
| Commands.AddAppendsAtCursor | LogMessage/LogMessage.js:129-132 | `add` appends exactly one line at the cursor after the existing lines and moves the cursor down one line height; the viewport and the visibility are unchanged |
| Commands.ClearThenFrameIsIdle | LogMessage/LogMessage.js:144-147 | `clear` empties the container and resets its cursor, keeping the viewport and the visibility, and the next frame changes nothing |
| IconLayout.IconCell | LogMessage/LogMessage.js:256-257 | the atlas cell of an icon index has a column below 16, and its row and column spell out the index |
| IconLayout.CellRoundTrip | LogMessage/LogMessage.js:256-257 | every cell of the 16-column atlas is named by the index that maps back to it |
| IconLayout.IndexRoundTrip | LogMessage/LogMessage.js:256-257 | converting an index to its cell and back gives the same index |
| IconLayout.SourceOrigin | LogMessage/LogMessage.js:254-257 | the source corner of an icon is on the icon grid: with a positive icon size, its x is a multiple of `pw` whose quotient is `index % 16`, and its y a multiple of `ph` whose quotient is `index / 16`; the rectangle lies within the atlas's 16 columns, and its top is between 0 and `index * ph` |
| IconLayout.SourceOriginRecoversIndex | LogMessage/LogMessage.js:254-257 | dividing the source origin by the icon size recovers the icon index |
| IconLayout.SourceOriginInjective | LogMessage/LogMessage.js:254-257 | distinct icon indices read from distinct atlas positions |
| IconLayout.PlaceIcon | LogMessage/LogMessage.js:247-250 | an icon is drawn 2 pixels right of the text cursor; the cursor then moves past the icon plus 4 pixels, which leaves a 2-pixel margin after the icon |
| IconLayout.IconRun | LogMessage/LogMessage.js:247-250 | in a run of icons each one starts where the previous one left the cursor, and after `i + 1` icons the cursor has advanced `(i + 1) * (iconSize + 4)` |
| IconLayout.IconRunDisjoint | LogMessage/LogMessage.js:247-250 | icons in a run never overlap: each starts at least `iconSize + 4` pixels after the previous one's start |
| IconLayout.IconTop | LogMessage/LogMessage.js:248 | an icon is centred vertically in the line: the space above it equals the space below |
| IconLayout.TextTop | LogMessage/LogMessage.js:201 | text is centred vertically in the line: the space above the font size equals the space below |
| Placement.SearchAsWritten | LogMessage/LogMessage.js:108-114 | the search as written reports not-found only for a scene with no children, and whatever it finds is a map spriteset |
| Placement.AsWrittenNeverFinishes | LogMessage/LogMessage.js:109-114 | on a scene with children but no map spriteset, the search as written never finishes, however many iterations are allowed |
| Placement.AsWrittenFindsMap | LogMessage/LogMessage.js:109-114 | on a scene that has a map spriteset, the search as written finishes and finds the first one, given one iteration per child up to it, so the hang happens only on scenes without one |
| Placement.FindMap | LogMessage/LogMessage.js:108-114 | the bounded search returns only a map spriteset at or after its start |
| Placement.FindMapFindsFirst | LogMessage/LogMessage.js:108-114 | the bounded search finds the first map spriteset, and finds none exactly when there is none |
| Placement.AsWrittenAgreesWhenFinished | LogMessage/LogMessage.js:108-114 | whenever the search as written does finish, it gives the bounded search's answer |
| Scenarios.TwoLinesAfterInit | LogMessage/LogMessage.js:197-206 | `init` then `add("Hello")` and `add("World")` place the lines at 0 and 36, with the cursor at 72 |
| Scenarios.FourLinesLayout | LogMessage/LogMessage.js:197-206 | four lines added to a fresh log sit at 0, 36, 72 and 108, with the cursor at 144 |
| Scenarios.EarlyFrame | LogMessage/LogMessage.js:174-194 | in the four-line run, frames 0 to 7 move every line up 4 pixels and drop nothing |
| Scenarios.EvictingFrame | LogMessage/LogMessage.js:190-193 | frame 8 takes the oldest line fully above the top and drops it |
| Scenarios.LateFrame | LogMessage/LogMessage.js:174-194 | frames 9 and 10 move the remaining lines up 4 pixels |
| Scenarios.FourLinesSettle | LogMessage/LogMessage.js:174-194 | four lines in a viewport 100 pixels high overflow it by 44; after 11 frames of 4 pixels the oldest line is gone, the newest is flush at the bottom, and scrolling has stopped |
| Scenarios.OneOtherChildHangs | LogMessage/LogMessage.js:109-114 | on a scene whose only child is not the map's spriteset, the search as written never finishes |
| Scenarios.AddAfterRemoveIsIgnored | LogMessage/LogMessage.js:129-154 | `add` after `remove` is silently ignored, and a later `init` starts from a fresh container |

## Left out

- Text rasterisation. The hidden window's `drawTextEx`, the `Bitmap`
  creation, fonts, text colour and the `Window_Hidden` overrides are not
  modelled. They are engine drawing code; an entry keeps its text in place of
  its bitmap. Every bitmap is one `lineHeight` high, which is the line height
  the model uses.
- The icon `blt` call and the atlas loading through `ImageManager`. Only the
  source and destination arithmetic is modelled. The icon width and height
  are parameters.
- The PIXI mask and the insertion of the container into the display tree.
  These are host scene-graph plumbing. The search for the map's spriteset
  is modelled only for the finding below.
- The per-child `update()` calls. These are engine callbacks with no effect
  on positions. `visible` is kept as a plain flag with no rendering effect.
  The engine keeps updating a hidden child, so `Frame` updates a hidden
  container too.
- Parameter parsing through `PluginManagerEx`. The four parameters are
  fixed positive integers given as a `Config`. Command arguments are
  integers.
- JavaScript numbers are doubles. Positions, sizes and parameters are
  integers here, so the halving in the vertical centring of icons and text
  is done over the reals.
- `remove` only detaches the container and clears the scene's reference,
  and the model does the same; nothing is destroyed. No width validation
  or other error path exists besides the repeated `init`.
- Commands.Step: `init` is modelled as on a map scene, where the search for
  the map's spriteset finishes and the handler returns with the new
  container. On a scene with children but no map spriteset the handler as
  written never returns (see Findings), and `Step` does not model that hang.
- IconLayout.IconCell: the index is a natural number. The `\I[n]` escape
  accepts digits only, so a negative index cannot arise.
- Settling.UpdateKeepsNewest: assumes a viewport of positive height. With
  height 0 or less, the newest line can expire in the same frame in which
  it becomes flush.
- Settling.Converges: assumes a viewport of positive height, for the same
  reason.
- Settling.ComesToRest: assumes a viewport of positive height, for the same
  reason.
- Settling.OverflowAfter: assumes a viewport of positive height, for the
  same reason.
- Settling.NotFlushBefore: assumes a viewport of positive height, for the
  same reason.

## Findings

| source | as written | input that shows it | evidently intended | confidence | as-written member | corrected member |
|---|---|---|---|---|---|---|
| LogMessage/LogMessage.js:109 | the loop condition is `SceneManager._scene.children.length`, which stays true for any scene with children, instead of `i < ...length` | `init` on a scene whose children include no `Spriteset_Map`, such as a battle scene: once the index passes the last child, `children[i]` is `undefined`, the test fails and the loop runs forever | stop at the last child, and add the container to the scene itself when no map spriteset is found (lines 123-124) | high; not executed | Placement.AsWrittenNeverFinishes | Placement.FindMapFindsFirst |
