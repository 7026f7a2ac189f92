# Cartazista poster editor — a Dafny model of its editing core

Cartazista is a browser editor for price-tag posters: the user fills text
fields shared by a grid of cards, drags, resizes and rotates the elements of
each card on a page that may be shown scaled down, undoes and redoes edits, and
signs in against a small local user list.  This project models, in Dafny, the
parts of it that carry logic:

- **The undo/redo store** (`js/state.js`): the document (`config`, `defaults`,
  `cards`), the history stacks `past` and `future` with their cap of 50
  snapshots, the five editing actions, undo and redo, and the change
  notification.  `History` states the history as values (`Timeline`,
  `Commit`, `Undo`, `Redo`) and proves its laws; `State.Store` is the store
  itself, a class whose methods are proved to follow `History`.
- **The card list** (`Cards`): growing with copies of the defaults,
  truncating, cascading one field to every card, overwriting every card.
  Shared by `js/state.js` and `script.js`.
- **The selection and manipulation controller** (`js/drag-drop.js`):
  `DragDrop.Controller` holds the module-level variables of that file; the
  surface arithmetic (scale fallback, drag offset, resize rule) is in
  `Surface`.  Its invariant: only the selected element carries handles, and
  exactly the four `e`, `s`, `se`, `rot`; every scale factor stays positive.
- **The older single-file editor** (`script.js`): `Legacy.LegacyEditor`, with
  its card-list resize, bulk overwrite, and a drag controller that captures
  and sanitises the surface scale once per gesture.
- **The user registry** (`js/auth.js`): `Auth.Registry` keeps the stored user
  list and the session; its invariant is that the stored list starts with the
  super-administrator and has unique e-mails.

JavaScript numbers are modelled as exact `real`s; `parseFloat` results as
`Surface.Parsed` (a number or NaN).  The browser's measurements and readings
(the surface scale, an element's rendered size, the angle computed during a
rotation, `Date.now()`) are parameters.  `notify()` is modelled by appending
the state handed to subscribers to `State.Store.published`.

The model follows the code, with the two corrections listed under
"## Findings".  Points worth knowing about the code: `js/drag-drop.js`
replaces only a zero or NaN surface scale by 1 (a negative one is kept; only
`script.js` also replaces negatives), and it re-reads the surface scale on
every move, while `script.js` reads it once per gesture; a layout change is
two history entries (`updateConfig` then `resizeCardsArray`,
js/editor.js:93-96), so the card count equals the layout after
`resizeCardsArray` but not in every state reachable by undo
(`History.UndoSplitsLayoutChange`).  `DragDrop.Controller`'s invariant
"every scale factor stays positive" rests on the first correction (the start
scale read from the element's own scale factors): as written, a resize after
a rotation can install a negated or zero scale factor.  The second correction
(a zero start size keeps the start scale) gives the model a real-valued scale
where the code computes Infinity or NaN, a write the browser drops.

## Model

| member | source | states |
|---|---|---|
| `Cards.Resized` | js/state.js:136-147 | the resized list has exactly `target` cards; the first `min(old, target)` cards are the old ones, and every appended card equals the defaults |
| `Cards.ResizedStep` | js/state.js:140-142 | growing by one more card appends exactly one copy of the defaults (the loop step) |
| `Cards.ResizedIdentity` | script.js:54-58 | a list already at the target length is left exactly as it was |
| `Cards.ResizedShrinkIsPrefix` | script.js:54-56 | shrinking yields an initial segment of the list, in the same order |
| `Cards.WithField` | js/state.js:85-88 | every card gets field `key` set to `value`; the card count and every other field of every card are unchanged |
| `Cards.WithCardField` | js/state.js:97 | only field `key` of the card at `index` changes; all other cards and fields are unchanged |
| `Cards.Overwritten` | script.js:61-65 | the card count is kept and every card equals the defaults |
| `History.Applied` | js/state.js:76-80 | `updateConfig(key, value)` sets the named configuration field and keeps every other field |
| `History.LayoutApplied` | js/state.js:136-147 | after `resizeCardsArray` the card count equals `config.layout`; config and defaults are untouched |
| `History.Pushed` | js/state.js:42-46 | pushing onto `past` ends with the new snapshot; below the cap nothing is lost; at the cap the oldest (front) snapshot is evicted; a past within the cap stays within it |
| `History.Commit` | js/state.js:42-46 | an action installs the new state, puts the old one on top of `past`, empties `future`, and keeps the 50-snapshot bound |
| `History.Undo` | js/state.js:48-60 | undo with empty `past` changes nothing; otherwise `past` loses its top, which becomes the present, and the old present goes on `future`; the bound is kept |
| `History.Redo` | js/state.js:62-73 | redo with empty `future` changes nothing; otherwise symmetric to undo; the bound is kept |
| `History.RedoUndoes` | js/state.js:48-73 | redo right after an effective undo restores the timeline before the undo |
| `History.UndoRedoes` | js/state.js:48-73 | undo right after an effective redo restores the timeline before the redo |
| `History.UndoCommit` | js/state.js:42-60 | below the cap, undo right after an action restores the state before it, with the undone state as the only redo |
| `History.UndoAllRestores` | js/state.js:42-60 | N actions followed by N undos restore the state and the past from before the first action, when no snapshot was evicted |
| `History.CommitAllKeepsRecent` | js/state.js:42-46 | after N actions `past` is, in order, the most recent `min(|past| + N, 50)` of the old past, the old present and the installed states but the newest |
| `History.UndoAllRestoresPresent` | js/state.js:42-60 | for every N up to 50, N actions followed by N undos bring back the state from before the first action, also when `past` is full and snapshots are evicted |
| `History.UndoTimesPops` | js/state.js:48-60 | k effective undos pop exactly the top k snapshots of `past`, the last popped becoming the present |
| `History.UndoAtCapStopsShort` | js/state.js:44 | after an action at the cap, 50 undos reach the second-oldest snapshot and a 51st does nothing: the oldest is gone |
| `History.UndoSplitsLayoutChange` | js/editor.js:93-96 | undoing the resize that follows a layout change leaves a state whose card count differs from its layout |
| `State.Store.constructor` | js/state.js:3-24 | the initial configuration, defaults, empty card list and empty history |
| `State.Store.Notify` | js/state.js:33-36 | subscribers are handed the current state |
| `State.Store.PushHistory` | js/state.js:42-46 | the snapshot is pushed with the cap applied and `future` is emptied; the history bound is kept |
| `State.Store.Undo` | js/state.js:48-60 | the store moves as `History.Undo`; subscribers are notified only when `past` was not empty |
| `State.Store.Redo` | js/state.js:62-73 | the store moves as `History.Redo`; subscribers are notified only when `future` was not empty |
| `State.Store.UpdateConfig` | js/state.js:76-80 | one commit whose new state differs from the old only in the named configuration field; one notification |
| `State.Store.UpdateDefault` | js/state.js:82-90 | one commit setting the default and the same field of every card; one notification |
| `State.Store.UpdateCard` | js/state.js:92-100 | with no card at `index`, state, history and notifications are untouched; otherwise one commit changing only that card's field |
| `State.Store.SetCards` | js/state.js:102-106 | one commit replacing the card list; one notification |
| `State.Store.ResizeCardsArray` | js/state.js:136-147 | one commit to `History.LayoutApplied` of the old state, so the card count equals the layout; one notification |
| `Surface.OrZero` | js/drag-drop.js:134-135 | a numeric position reading is kept and NaN reads as 0 |
| `Surface.OrOne` | js/drag-drop.js:159 | the fallback scale is never 0; a non-zero reading is kept, 0 and NaN become 1 |
| `Surface.Sanitised` | script.js:433-434 | the gesture scale is always positive; a positive reading is kept, 0, NaN and negatives become 1 |
| `Surface.FallbacksDifferOnNegative` | script.js:434 | the two fallbacks agree exactly on readings that are not negative numbers |
| `Surface.Moved` | js/drag-drop.js:159-164 | the document displacement times the surface scale equals the pointer displacement |
| `Surface.MovedBackIsStart` | js/drag-drop.js:159-164 | a pointer back at the gesture start puts the element back at its start position |
| `Surface.MovedIsPathIndependent` | js/drag-drop.js:159-164 | in exact arithmetic, a move from the start to `p1` followed by a move from `p1` to `p2` lands where one move from the start to `p2` lands |
| `Surface.ResizedScale` | js/drag-drop.js:235-250 | a candidate size at or below the floor, or a zero start size, keeps the start scale; for a positive start size and a candidate above the floor, the scale grows in proportion to the size; positive scales stay positive |
| `Surface.ResizedScaleAsWritten` | js/drag-drop.js:239-242 | for a non-zero start size it agrees with `ResizedScale` |
| `Surface.ZeroWidthResizeIsNonFinite` | js/drag-drop.js:239-242 | a zero start width moved 21px east gives a non-finite scale as written (a transform the browser drops), the start scale in the corrected rule |
| `Surface.RotateScale` | js/drag-drop.js:252 | the matrix of `rotate(θ) scale(sx, sy)`; without a rotation it is the pure scale `diag(sx, sy)` |
| `Surface.MatrixStartScale` | js/drag-drop.js:196-199 | the start scale read as `(matrix.a, matrix.d)`; for a matrix without a rotation part it is exactly the scale the matrix was written with |
| `Surface.RotatedStartScaleIsWrong` | js/drag-drop.js:196-199 | reading the start scale as `(matrix.a, matrix.d)` gives the negated scale at 180 degrees and 0 at 90 degrees |
| `Surface.ColumnNormsAreScales` | js/drag-drop.js:319-322 | the column norms of `rotate(θ) scale(sx, sy)` are the scale factors whatever θ |
| `DragDrop.Controller.constructor` | js/drag-drop.js:4-23 | nothing selected, no gesture, start scale 1 |
| `DragDrop.Controller.MakeDraggable` | js/drag-drop.js:91-97 | the element joins the manipulable elements; the invariant is kept |
| `DragDrop.Controller.Deselect` | js/drag-drop.js:46-53 | the selection is empty afterwards and the old selection has no handles (so a second call changes nothing) |
| `DragDrop.Controller.Select` | js/drag-drop.js:55-72 | the element is selected with exactly the handles `e`, `s`, `se`, `rot`; the previous selection has none; re-selecting changes nothing |
| `DragDrop.Controller.Click` | js/drag-drop.js:336-340 | a click outside every element and handle clears the selection; otherwise it is kept |
| `DragDrop.Controller.DragStart` | js/drag-drop.js:99-144 | a non-primary mouse button or a target in text-edit mode changes nothing; otherwise the target is dragged and selected, and the pointer and its position (NaN read as 0) are recorded |
| `DragDrop.Controller.Drag` | js/drag-drop.js:146-165 | no-op without a drag; otherwise left/top become start position plus pointer delta over the scale read at this move |
| `DragDrop.Controller.DragEnd` | js/drag-drop.js:167-173 | no element is being dragged |
| `DragDrop.Controller.InitResize` | js/drag-drop.js:177-211 | the selected element is being resized with the pressed handle; pointer, start scale and start size recorded (corrected: the element's own scale) |
| `DragDrop.Controller.DoResize` | js/drag-drop.js:213-253 | no-op without a gesture; otherwise `e`/`se` rescale the width and `s`/`se` the height by `ResizedScale` from the gesture start, the other axis stays at its start scale |
| `DragDrop.Controller.StopResize` | js/drag-drop.js:255-261 | no element is being resized |
| `DragDrop.Controller.InitRotate` | js/drag-drop.js:265-269 | the selected element is being rotated |
| `DragDrop.Controller.DoRotate` | js/drag-drop.js:299-325 | no-op without a gesture; otherwise the element takes the new angle and its scale factors are unchanged |
| `DragDrop.Controller.StopRotate` | js/drag-drop.js:327-333 | no element is being rotated |
| `Legacy.LegacyEditor.constructor` | script.js:17-35 | the initial layout, defaults, empty card list, and gesture scale 1 |
| `Legacy.LegacyEditor.UpdateCardsState` | script.js:44-59 | the card list becomes `Cards.Resized` of the old one: exactly `layout` cards, old prefix kept, new cards equal to the defaults |
| `Legacy.LegacyEditor.UpdateAllCardsWithDefaults` | script.js:61-65 | the card list becomes `Cards.Overwritten` of the old one |
| `Legacy.LegacyEditor.DragStart` | script.js:394-462 | a non-left button or a target in text-edit mode changes nothing; otherwise the target is dragged with the sanitised (positive) scale captured |
| `Legacy.LegacyEditor.Drag` | script.js:464-486 | no-op without a drag; otherwise left/top become start position plus pointer delta over the scale captured at gesture start |
| `Legacy.LegacyEditor.DragEnd` | script.js:488-494 | no element is being dragged |
| `Auth.Find` | js/auth.js:56 | the result is the first user satisfying the predicate, and there is none exactly when no user satisfies it |
| `Auth.WithoutId` | js/auth.js:49 | exactly the users without the id remain |
| `Auth.WithoutIdSingleton` | js/auth.js:49 | a single user is kept exactly when its id differs |
| `Auth.WithoutIdAppend` | js/auth.js:49 | filtering a concatenation is the concatenation of the filtered parts, so the remaining users keep their order and multiplicity |
| `Auth.WithoutAbsentId` | js/auth.js:49 | deleting an id no user has leaves the list unchanged |
| `Auth.WithoutIdKeepsEmailsUnique` | js/auth.js:49 | removing users keeps e-mails unique |
| `Auth.Message` | js/auth.js:22-64 | every failure has a non-empty message, the texts of lines 24, 26, 46 and 62 |
| `Auth.MessagesDistinct` | js/auth.js:22-64 | two failures share a message exactly when they are the same failure |
| `Auth.SaveError` | js/auth.js:24-27 | a refused save reports missing fields exactly when a field is empty (that check comes first); otherwise the e-mail is taken by a registered user |
| `Auth.Seeded` | js/auth.js:12-20 | empty storage reads as exactly `[DEFAULT_ADMIN]`; otherwise the stored list |
| `Auth.Saved` | js/auth.js:22-40 | saving succeeds exactly when no field is empty and the e-mail is not registered; success appends one user with role `user` at the end |
| `Auth.Deleted` | js/auth.js:42-52 | deleting fails exactly when the first user with the id is the super-administrator; otherwise every user with the id is removed |
| `Auth.Credentials` | js/auth.js:54-56 | a login matches exactly when some user has both the e-mail and the password, and yields the first such user |
| `Auth.CredentialsUnique` | js/auth.js:25-27 | with unique e-mails the matching user is the only one |
| `Auth.Registry.constructor` | js/auth.js:12-18 | storage starts empty, with no session |
| `Auth.Registry.GetUsers` | js/auth.js:12-20 | empty storage is seeded with the administrator and the stored list returned; the list starts with the administrator |
| `Auth.Registry.SaveUser` | js/auth.js:22-40 | the stored list becomes `Saved` of the old one, or is unchanged with the error `Saved` refuses for |
| `Auth.Registry.DeleteUser` | js/auth.js:42-52 | the stored list becomes `Deleted` of the old one, or is unchanged with the super-admin error; the administrator stays first |
| `Auth.Registry.Login` | js/auth.js:54-64 | the result is `Credentials` of the list; a match becomes the session, a failure leaves the session as it was |
| `Auth.Registry.Logout` | js/auth.js:66-68 | no session remains |
| `Auth.Registry.GetSession` | js/auth.js:70-73 | the current session, or none |

## Findings

| source | as written | input that shows it | evidently intended | confidence | as-written member | corrected member |
|---|---|---|---|---|---|---|
| js/drag-drop.js:196-199 | `initResize` takes the start scale from `matrix.a` and `matrix.d`, which are `scaleX·cos θ` and `scaleY·cos θ` for a rotated element | an element at `rotate(180deg) scale(1, 1)`: the start scale reads `(-1, -1)`, so the first resize move writes `rotate(180deg) scale(-1, …)` and the element snaps upright; at 90 degrees the start scale is 0 and the element collapses | the element's own scale factors, which `doRotate` reads correctly with `Math.hypot` (js/drag-drop.js:321-322) | medium; not executed | `Surface.MatrixStartScale`, `Surface.RotatedStartScaleIsWrong` | `DragDrop.Controller.InitResize` (with `Surface.ColumnNormsAreScales`) |
| js/drag-drop.js:239-242, 246-248 | the candidate size is divided by `initialWidth` / `initialHeight` without checking them | an element 0px wide and 40px high at gesture start, dragged 21px east and 11px south by the `se` handle: `21 / 0` is Infinity, `scale(Infinity, …)` is invalid CSS, so the browser drops the whole transform write and the height change of that move is lost too (with the `e` handle the start scale is kept, by accident) | the axis with a zero start size keeps its start scale, as it does for any candidate at or below the floor, and the other axis is still resized | low; not executed | `Surface.ResizedScaleAsWritten`, `Surface.ZeroWidthResizeIsNonFinite` | `Surface.ResizedScale` |

## Left out

- Persistence: `saveToStorage`/`loadFromStorage` (js/state.js:108-134) and JSON cloning; snapshots are value copies.
- Subscriber registration (`subscribe`, js/state.js:29-31): subscribers are represented only by the log of states they are handed.
- `State.Store.SetCards`: the source installs the caller's array itself, so later `updateCard` calls also change the caller's objects; the value model does not capture that aliasing.
- `State.Store.UpdateConfig`: keys and values are typed (one `ConfigChange` per field); writing an unknown key or a value of another type is not modelled.
- `History.Config` and `Legacy.LegacyEditor`: `layout` is a natural number; a `parseInt` result of NaN or a negative layout is not modelled.
- Card fields hold strings; per-field transform overrides are not part of the card records.
- Reading the surface scale from the container's inline `transform` or computed matrix (js/drag-drop.js:26-44, script.js:416-432) is not modelled: its `parseFloat` result is an input.
- Rotation maths (`Math.atan2` pivot angles, js/drag-drop.js:271-288, 313-317): the new angle is an input of `DoRotate`.
- `DragDrop.Controller.DoResize`: keeps the element's rotation verbatim; the source re-derives it with `Math.atan2` from the current matrix, which gives the same angle for the positive scale factors the model keeps, up to normalisation into (-180, 180].
- `DragDrop.Controller.DoRotate`: models the `Math.hypot` reading of the scale as the absolute value of the element's scale factor, which is exact for a `rotate(θ) scale(sx, sy)` matrix (`Surface.ColumnNormsAreScales`).
- `DragDrop.Controller.InitResize`: the rendered `offsetWidth`/`offsetHeight` are inputs.
- Event listener registration and removal, `preventDefault`/`stopPropagation`, touch-versus-mouse dispatch (a touch uses its first contact point), forcing `position: relative`, and the `selected-element` class.
- References to elements removed by a re-render are not invalidated; the set of manipulable elements only grows.
- Number formatting: writing `${value}px` and reading it back with `parseFloat` is taken to be exact, as are all floating-point operations.
- `Auth.Saved`: the `!name` test treats only the empty string as missing; `null`/`undefined` arguments are not modelled.
- `Auth.Registry`: storage errors and malformed stored JSON are not modelled; `Date.now()` is the `now` parameter.
- js/editor.js (rendering, font scaling, PDF export), js/main.js (view routing), js/mobile-scale.js and mobile_scale.js (fit-to-viewport layout), js/stats.js, print_fix.js, and the rendering, font, sidebar and PDF code of script.js (lines 67-375, 497-577) are not part of this model.
