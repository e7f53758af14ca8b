# Enlaut launcher: a Dafny model of its window interaction, animation and list logic

Enlaut is a small PyQt5 game launcher. It shows one borderless window. The user
drags the window by its top strip and resizes it from its edges. A background
picture rotates one degree every timer tick. The window also keeps a library of
games and a bar of favorites, both stored as JSON lists of `{name, path, icon}`
records. This project models the parts of `Enlaut/main.py` that carry logic:

- `Geometry` (`geometry.dfy`): window rectangles stored as Qt's `QRect` stores
  them, by their edges. `setWidth`/`setHeight` keep the left/top edge, and
  `setLeft`/`setTop` keep the right/bottom edge. `move` keeps the size. `QRect`
  itself clamps nothing; the window's own size limits are not modelled (see
  "## Left out").
- `Pointer` (`pointer.dfy`): the pointer state machine of `GameLauncher`.
  - `FramelessWindow` holds the program's own fields. `resizeDir` is an
    `Option<string>`, exactly as in Python: `None`, `""`, `"left"`,
    `"righttop"`, ….
  - Its handlers do what the Python handlers do: `is not None`, truthiness,
    `'right' in …`, string concatenation and the cursor dictionary with its Arrow
    default.
  - Each handler is proved equal to a pure transition (`Press`, `Release`,
    `Move`) over an abstract state. In that state the direction is the datatype
    `NoDir | Latched(h, v)`, and `Latched(None, None)` is `""`.
  - Lemmas show that the string tests read this datatype faithfully: `None` and
    `""` stay distinct, and each substring test detects exactly one edge. Further
    lemmas cover the properties of the transitions and of whole event sequences.
- `Background` (`background.dfy`): `AnimatedBackground.update_rotation`, its
  closed form over `n` ticks and its period of exactly 360. It also covers the
  integer translations that `paintEvent` computes, with Python's `//` written out.
- `Library` (`library.dfy`): the list operations, with the two JSON files
  replaced by the sequences `games` and `favorites`. It covers `add_game`,
  `display_game_details`, the two context dialogs (deleting a game, deleting or
  adding a favorite), `add_to_favorites`, `play_selected_game` and `launch_path`.
  A user's dialog answers are parameters of the methods.
- `Options` (`options.dfy`): `Option` with `GetOr`, Python's `dict.get` with a
  default.

The Python classes map onto the Dafny classes as follows.
`Pointer.FramelessWindow` holds the pointer fields of `GameLauncher` and its three
mouse handlers. `Library.Launcher` holds the rest of the list state:
`GameLauncher`'s `selected_game_path`, `add_game`, `display_game_details` and
`play_selected_game`; the current item and the delete handler of `GameList`;
`FavoritesBar`'s `add_to_favorites` and favorite delete handler; and the two
documents `GameManager` reads and writes. `Background.AnimatedBackground` is
`AnimatedBackground`.

The model follows the code as written, including these behaviours a reader might
not expect:

- A left press sets `dragging` (from the local height, `y < 50`) and `resizing`
  (from `resize_dir is not None`) independently. A later move resizes first, if a
  non-empty direction is latched, and only otherwise drags. The code does not
  prevent a drag from being armed while a direction is latched.
- Every move that neither resizes nor drags recomputes the direction, whether or
  not a button is held.
- After any tracking move, `resize_dir` is a string, possibly `""`. So a press
  anywhere sets `resizing`. A later move that reaches an edge only latches that
  edge; the move after it resizes, although no press happened on the edge. The
  model keeps this behaviour rather than fixing it
  (`Pointer.EmptyDirectionArmsResize`). Tracking moves do not move the anchor, so
  that first resize is measured from the press point.
- The top-left and bottom-right corners show the same cursor (`SizeFDiagCursor`).
  The top-right and bottom-left corners share `SizeBDiagCursor`.
- `add_game` does not check whether the path is already in the library. Deleting
  a path removes every record with it.

## Model

| member | source | states |
|---|---|---|
| Geometry.Point.Minus | Enlaut/main.py:602 | the pointer's travel: anchor plus delta is the current global position |
| Geometry.Rect.SetWidth | Enlaut/main.py:605-606 | the new width is the one asked for; the left, top and bottom edges stay |
| Geometry.Rect.SetHeight | Enlaut/main.py:607-608 | the new height is the one asked for; the top, left and right edges stay |
| Geometry.Rect.SetLeft | Enlaut/main.py:609-610 | the left edge moves to the new value, the right edge stays, and the width changes by the opposite amount |
| Geometry.Rect.SetTop | Enlaut/main.py:611-612 | the top edge moves to the new value, the bottom edge stays, and the height changes by the opposite amount |
| Geometry.Rect.MoveTo | Enlaut/main.py:620 | the window moves to the new corner and keeps its size |
| Geometry.RectOfSize | Enlaut/main.py:388 | a rectangle with the given corner, width and height |
| Pointer.SpelledEdges | Enlaut/main.py:605-612 | each of `'left'`, `'right'`, `'top'`, `'bottom'` is a substring of a stored direction exactly when that edge is latched |
| Pointer.SpellingRoundTrip | Enlaut/main.py:588 | reading a stored direction back gives the direction; `is not None` holds exactly when a direction is latched; truthiness holds exactly when it names an edge |
| Pointer.SpellingInjective | Enlaut/main.py:393 | two directions have the same stored value exactly when they are equal, so `None` and `''` stay distinct |
| Pointer.CursorTableAgrees | Enlaut/main.py:636-646 | the dictionary lookup with the Arrow default gives the cursor shape of the latched edges |
| Pointer.CursorShapes | Enlaut/main.py:636-646 | Arrow exactly when no edge is latched; horizontal for left/right alone; vertical for top/bottom alone; forward diagonal for top-left and bottom-right; backward diagonal for top-right and bottom-left |
| Pointer.PressEffect | Enlaut/main.py:584-589 | a left press sets `dragging` iff `y < 50` and `resizing` iff a direction is stored, each independently, and sets the anchor to the global position; any other button changes nothing |
| Pointer.ReleaseEffect | Enlaut/main.py:591-595 | a release from any state clears both flags, the direction and the cursor, and keeps the geometry |
| Pointer.ResizeMove | Enlaut/main.py:601-616 | a resizing move changes only the geometry and the anchor, even with `dragging` set; right: width grows by dx from a fixed left edge; left: left edge moves by dx, right edge fixed, width shrinks by dx; likewise for bottom and top; an unlatched axis keeps both its edges |
| Pointer.DragMove | Enlaut/main.py:618-622 | a dragging move shifts the window by the travel since the anchor, keeps its size and re-anchors |
| Pointer.DragAccumulates | Enlaut/main.py:618-622 | two dragging moves shift the window by the total travel from the first anchor |
| Pointer.TrackingMove | Enlaut/main.py:624-646 | a tracking move latches left iff `x < 6`, right iff not left and `x > w - 6`, top iff `y < 6`, bottom iff not top and `y > h - 6`; it sets the matching cursor and changes nothing else |
| Pointer.ReleaseEndsInteraction | Enlaut/main.py:591-595 | after any event sequence that ends with a release, the window is idle with no direction latched and the geometry the sequence left |
| Pointer.StepKeepsConsistent | Enlaut/main.py:584-646 | every event keeps the cursor equal to the shape of the latched direction, and keeps `resizing` set only while a direction is stored |
| Pointer.RunKeepsConsistent | Enlaut/main.py:584-646 | that invariant holds after any sequence of events |
| Pointer.ReachableConsistent | Enlaut/main.py:390-393 | the invariant holds in every state a new window can reach |
| Pointer.EmptyDirectionArmsResize | Enlaut/main.py:588 | a middle tracking move stores `''`; a press then sets `resizing`; the next move to the right edge latches `'right'`; the move after that widens the window by the travel since the press; on a fresh window the same press does not set `resizing` |
| Pointer.EdgeExamples | Enlaut/main.py:624-646 | in an 800 by 600 window, (3, 300) latches left only with the horizontal cursor; (400, 3) latches top only with the vertical cursor; the top-left corner square latches left and top with the same forward-diagonal cursor as the bottom-right corner |
| Pointer.DragExample | Enlaut/main.py:618-622 | dragging from (100, 100) to (150, 120) moves the window by (50, 20); going on to (160, 125) moves it by a further (10, 5) |
| Pointer.ResizeExamples | Enlaut/main.py:601-616 | right-and-bottom with delta (20, -10) changes the size only, by (20, -10); left with delta (20, 0) moves the left edge by 20 and narrows the window by 20 |
| Pointer.FramelessWindow.constructor | Enlaut/main.py:387-393 | a new 1280 by 720 window: not dragging, not resizing, no direction, anchored at its position, arrow cursor |
| Pointer.FramelessWindow.MousePressEvent | Enlaut/main.py:584-589 | the string-level press handler yields the abstract `Press` transition and keeps the stored direction well-formed |
| Pointer.FramelessWindow.MouseReleaseEvent | Enlaut/main.py:591-595 | the release handler yields `Release` |
| Pointer.FramelessWindow.MouseMoveEvent | Enlaut/main.py:597-646 | the move handler (substring tests, string building, dictionary lookup) yields the abstract `Move` transition |
| Background.Tick | Enlaut/main.py:35 | a tick always gives an angle in [0, 360); for an angle in (0, 360] it is one less; 0 goes to 359 |
| Background.TicksClosedForm | Enlaut/main.py:34-35 | after `n` ticks from an angle in range, the angle is `(angle - n) mod 360` |
| Background.FullTurnPeriod | Enlaut/main.py:27 | from any angle in range, 360 ticks return to the start and no smaller positive number of ticks does |
| Background.FloorHalf | Enlaut/main.py:43 | Python's `// 2`: the largest integer whose double is at most the argument, for negative arguments too |
| Background.OffsetsMeaning | Enlaut/main.py:43-50 | the pivot's x is `-(w mod 2)` (the left edge, or one pixel left of it), its y is half the height rounded down, and the picture is shifted back by half its width and height rounded up |
| Background.AnimatedBackground.constructor | Enlaut/main.py:27 | the angle starts at 0 |
| Background.AnimatedBackground.UpdateRotation | Enlaut/main.py:34-35 | the timer handler sets the angle to `Tick` of the old angle |
| Options.Option.GetOr | Enlaut/main.py:189 | the stored value if present, otherwise the default |
| Library.FirstWithPath | Enlaut/main.py:559-565 | none exactly when no record has the path; otherwise the index of a record with the path with no earlier such record |
| Library.WithoutPath | Enlaut/main.py:258 | a record is in the result exactly when it is in the input and has another path |
| Library.WithoutPathConcat | Enlaut/main.py:173 | filtering distributes over concatenation, so the kept records stay in their original order |
| Library.WithoutPathCounts | Enlaut/main.py:258 | each record with another path is kept as many times as it occurred, and no record with the path remains |
| Library.WithoutPathAbsent | Enlaut/main.py:258 | removing a path that no record has leaves the list unchanged |
| Library.WithoutPathIdempotent | Enlaut/main.py:173 | removing a path twice is the same as removing it once |
| Library.WithoutPathKeepsUnique | Enlaut/main.py:173 | removing a path never makes two records share a path |
| Library.UniquePathsCons | Enlaut/main.py:258 | helper of `WithoutPathKeepsUnique` (the filters at lines 173 and 258): a list with one more record at the front has distinct paths exactly when the rest has and no record of the rest shares the new record's path |
| Library.AddFavoriteEffect | Enlaut/main.py:177-193 | favorites stay the same exactly when there is no current item, no game has its path, or a favorite has it; otherwise exactly one record is appended after the old favorites, copying name and path from the first game with the path, with the icon defaulting to `''`; distinct paths stay distinct |
| Library.AddFavoriteIdempotent | Enlaut/main.py:185 | adding the same current item a second time changes nothing |
| Library.AddGameAllowsDuplicates | Enlaut/main.py:550-556 | adding two records with one path leaves the library with repeated paths, and deleting that path removes both |
| Library.LaunchPath | Enlaut/main.py:575-582 | a missing path gives NotFound, with no spawn attempted; an existing path gives Spawned or, on a spawn error, SpawnFailed with the system's message |
| Pointer.Initial | Enlaut/main.py:387-393 | the state of a new window; `ReachableConsistent` proves the cursor invariant for every state reached from it |
| Pointer.Press | Enlaut/main.py:584-589 | the abstract press transition; its properties are stated by `PressEffect` |
| Pointer.Release | Enlaut/main.py:591-595 | the abstract release transition; stated by `ReleaseEffect` and `ReleaseEndsInteraction` |
| Pointer.Move | Enlaut/main.py:597-646 | the abstract move transition; stated by `ResizeMove`, `DragMove`, `DragAccumulates` and `TrackingMove` |
| Pointer.EdgeDir | Enlaut/main.py:624-634 | the edges a tracking move latches, with left before right and top before bottom; stated by `TrackingMove` and `EdgeExamples` |
| Pointer.Resize | Enlaut/main.py:605-612 | the four setter calls of a resizing move in the program's order; stated edge by edge by `ResizeMove` |
| Pointer.LookupCursor | Enlaut/main.py:646 | `cursors.get(resize_dir, Qt.ArrowCursor)`; equal to `CursorFor` by `CursorTableAgrees` |
| Pointer.CursorFor | Enlaut/main.py:636-645 | the cursor shape of the latched edges; characterised by `CursorShapes` |
| Background.Ticks | Enlaut/main.py:34-35 | `n` ticks in a row; stated by `TicksClosedForm` and `FullTurnPeriod` |
| Background.ComputeOffsets | Enlaut/main.py:43-50 | the paint handler's translations; stated by `OffsetsMeaning` |
| Library.HasPath | Enlaut/main.py:185 | `any(f['path'] == path for f in favs)`; used in the conditions of `AddFavoriteEffect` and by `FirstWithPath` |
| Library.FavoriteOf | Enlaut/main.py:186-190 | the favorite record copied from a game, with the icon defaulting to `''`; stated by `AddFavoriteEffect` |
| Library.AddFavorite | Enlaut/main.py:177-193 | favorites after `add_to_favorites`; stated by `AddFavoriteEffect` and `AddFavoriteIdempotent`, and equal to what `Launcher.AddToFavorites` computes |
| Library.Launcher.constructor | Enlaut/main.py:394 | the stored lists are loaded; there is no current item, no selection and no details |
| Library.Launcher.AddGame | Enlaut/main.py:541-557 | an empty dialog answer changes nothing; otherwise one record is appended without a duplicate check, with the icon path or `''`, and the current item is cleared by the list rebuild |
| Library.Launcher.DisplayGameDetails | Enlaut/main.py:559-565 | the first record with the item's path is shown and its path selected; with no match nothing changes |
| Library.Launcher.ClickItem | Enlaut/main.py:225 | a click makes the item current and then shows its details |
| Library.Launcher.DeleteGame | Enlaut/main.py:256-264 | the library becomes `WithoutPath` of its old value; if the deleted path was selected, the selection and details are cleared, otherwise they are kept |
| Library.Launcher.AddToFavorites | Enlaut/main.py:177-193 | the search loop with its guarded append and `break` leaves favorites equal to `AddFavorite` of the old lists and current item |
| Library.Launcher.ShowGameContextMenu | Enlaut/main.py:241-264 | no item or cancel changes nothing; the favorite button makes the item current and adds it; the delete button deletes its path |
| Library.Launcher.ShowFavContextMenu | Enlaut/main.py:163-175 | on confirmation every favorite with that path is removed; otherwise nothing changes |
| Library.Launcher.PlaySelectedGame | Enlaut/main.py:567-569 | nothing is launched unless the selected path is present and non-empty; then its launch outcome is returned |

Every method of `Library.Launcher` also keeps `Valid()`: the details pane shows
exactly the selected game, and that record is in the library.

## Left out

- Qt widget construction, layouts, stylesheets, splitter sizes, and the rendering
  done by `refresh_favorites` and `populate_games`: declarative UI with no logic.
  The one effect of `populate_games` that the model keeps is that `clear()`
  empties the list's current item.
- `QPainter` antialiasing, `rotate` and `drawPixmap`: floating-point transforms
  inside the toolkit. Only the integer translations are modelled.
- The 30 ms `QTimer` and the `update()` repaint request: a tick is a call of
  `UpdateRotation`.
- Both `resizeEvent` handlers (lines 55-57 and 532-536), which only give the
  background widget the window's size.
- JSON file I/O in `GameManager`, including the missing-file case that loads as
  an empty list: the files are the fields `games` and `favorites`.
- `IconExtractor.extract_icon` (Windows `ctypes`/`shell32` calls): its result is
  the `iconExtracted` parameter.
- The `os.path.basename`/`splitext` derivation of the game name and the icon file
  name in `add_game`: they depend on the platform's path rules, so both come in as
  parameters.
- `QFileDialog`, `QMessageBox` and `subprocess.Popen`: the dialog answers, whether
  the path exists and the spawn error are parameters. The error dialogs of
  `launch_path` become the `LaunchOutcome` value.
- `launch_game` and a favorite button's click call `launch_path` on an item's path.
  That is `Library.LaunchPath` itself, so they have no member of their own.
- `GameDetails.display_details` loading the icon picture: the details pane is
  modelled as the record it shows.
- `show_settings`, minimize and close, and Qt's event acceptance and propagation.
- Qt stores geometry in 32-bit integers. The model uses unbounded integers,
  since overflow would need coordinates beyond two billion pixels.
- `Pointer.Move`, `Pointer.ResizeMove` and the window methods: the widget's size
  limits and window-manager adjustments are not modelled. The program installs a
  layout on the window (line 437), which gives it a minimum size, and
  `setGeometry` clamps the size into the widget's limits. The model stores the
  computed rectangle exactly, so its results hold only while the size stays within
  those limits. A left-edge resize that would make the window narrower than its
  minimum keeps the minimum width in the program; the window then slides instead.
- Move events (`Pointer.MoveEvent`) and the move functions take the local and the global pointer
  position as independent values. In the program the local position is the global
  one minus the window's origin. The all-inputs lemmas hold either way, but the
  concrete pairs in `DragExample` do not keep that relation.
- `AnimatedBackground` exists only when `assets/1.png` exists (lines 425-435).
  Otherwise the background is a plain black widget with no timer and no angle.
  The model always has the animated background.
- The window's frame position (`x()`, `y()`) is taken to be its geometry's corner,
  which holds for a frameless window.
