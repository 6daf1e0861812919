# Prototype viewer: flow-map checking, indexing and navigation

The prototype viewer lets a person click through a static UI prototype. A
*flow map* document declares the screens (each with an id and an image) and
the transitions between them (source screen, target screen, trigger label). The
viewer checks the document's shape, indexes it into two lookup maps
(`screensById` and `transitionsByFrom`), and then keeps a navigation state: the
current screen id and a back-history stack.

This project models that core in Dafny:

- `schema.dfy` (module `Schema`): the parsed document, the validated flow map,
  and `Validate`, the four ordered shape checks of `validateFlowMap`.
- `indexing.dfy` (module `Indexing`): the indexer as a specification.
  `BuildIndexes` gives the verdict and both maps as the indexer leaves them,
  including after a rejection half way. There is a reference definition
  (`Outgoing`, a plain filter), and the lemmas: keys, last write wins, no
  dangling edges, lists equal to the filter, and the order of errors.
- `navigation.dfy` (module `Navigation`): the navigation state as a value, the
  moves `Navigate` and `Back`, and the lemmas about them: back undoes a
  navigation, back on an empty stack changes nothing, and walks of any length
  retrace.
- `viewer.dfy` (module `PrototypeViewer`): class `Viewer` holds the viewer's
  shared state (`flowMap`, `flowMapUrl`, the two maps, `currentScreenId`,
  `history`). Its methods update those fields in place, and each is proved
  against the functions above: `IndexFlowMap` (with its two loops
  `InsertScreens` and `AppendTransitions`), `NavigateTo`, `GoBack`, and the
  synchronous part of `LoadFlowMap`.
- `scenarios.dfy` (module `Scenarios`): a two-screen map walked through
  load → navigate → back → back, and a map whose transition targets an
  undeclared screen.
- `wrappers.dfy` (module `Wrappers`): `Option` and `Result`.

Conventions:

- A string field counts as present when it is non-empty. This follows the
  viewer's truthiness tests for string values.
- `currentScreenId == ""` stands for the viewer's initial `null`.
- Image resolution (`new URL(screen.image, flowMapUrl).href`) is the
  uninterpreted function parameter `resolve`.

Where the code behaves in ways a reader may not expect, the model follows the code:

- An array document passes the "is an object" test, because `typeof` says
  "object". It then fails the `screens` check. The model gives it the
  constructor `Document.List`.
- A repeated screen id is not rejected. The later screen overwrites the
  earlier one (last write wins).
- Indexing clears and refills the shared maps in place. A rejected document
  therefore leaves them emptied or partly rebuilt. The current screen and the
  history keep their old values, because the reset runs only after indexing
  succeeds.
- `navigateTo` does not check that the target is an indexed screen.
- There is no "unloaded" state and no state error. Before any load, the
  current view is simply empty.

## Model

| member | source | states |
|---|---|---|
| Schema.Validate | skills/product-ui-prototyping/assets/prototype-viewer/viewer.js:30-43 | Success exactly when all four checks hold. Each error is reported exactly when its check is the first to fail: not an object (null or a scalar); `screens` absent, not an array or empty; `transitions` not an array; `start_screen` absent, not a string or empty. On success the map has non-empty screens and start screen; that its fields pass through unchanged is `Schema.ValidatedIsDocument` |
| Schema.ValidateToDocument | skills/product-ui-prototyping/assets/prototype-viewer/viewer.js:30-43 | Any flow map with screens and a start screen, written out as a document, passes the check and comes back unchanged |
| Schema.ValidatedIsDocument | skills/product-ui-prototyping/assets/prototype-viewer/viewer.js:30-43 | A document that passes the check is exactly the document of the flow map it yields (the other half of the round trip) |
| Indexing.TransitionError | skills/product-ui-prototyping/assets/prototype-viewer/viewer.js:62-70 | No error exactly when from, to and trigger are non-empty and both ends are known screens. An empty field is reported as an incomplete transition before any id is looked up. An unknown source is reported, naming it, exactly when the fields are complete and the source is unknown. An unknown target is reported, naming it, exactly when the fields are complete, the source is known and the target is not |
| Indexing.FirstBadScreen | skills/product-ui-prototyping/assets/prototype-viewer/viewer.js:49-52 | The position of the first screen without id or image: every earlier screen has both, and the one there lacks one (or the position is the length when none does) |
| Indexing.FirstBadTransition | skills/product-ui-prototyping/assets/prototype-viewer/viewer.js:61-70 | The position of the first rejected transition: every earlier one is accepted, and the one there is not (or the position is the length) |
| Indexing.ScreenIndex | skills/product-ui-prototyping/assets/prototype-viewer/viewer.js:49-55 | The screen map after inserting screens in order: every entry sits under its own id and carries its image resolved against the base address. `Indexing.ScreenIndexKeys` gives its keys and `Indexing.ScreenIndexLastWins` which screen wins |
| Indexing.TransitionIndex | skills/product-ui-prototyping/assets/prototype-viewer/viewer.js:72-74 | The transition map after appending in order: only sources with at least one transition are keys. `Indexing.TransitionIndexIsFilter` proves each list is the declaration-order filter |
| Indexing.BuildIndexes | skills/product-ui-prototyping/assets/prototype-viewer/viewer.js:45-76 | The indexer's verdict and both maps. It fails on a bad screen exactly when some screen lacks id or image. A screen or start-screen failure leaves the transition map empty. Success implies the start screen is indexed. `Indexing.IndexSucceedsIff` and `Indexing.IndexedGraphIsClosed` state the rest |
| Indexing.ScreenIndexKeys | skills/product-ui-prototyping/assets/prototype-viewer/viewer.js:49-55 | The keys of the screen index are exactly the declared screen ids |
| Indexing.ScreenIndexLastWins | skills/product-ui-prototyping/assets/prototype-viewer/viewer.js:54 | Each id maps to the last screen declared with it, together with that screen's resolved image |
| Indexing.ScreenIndexEntries | skills/product-ui-prototyping/assets/prototype-viewer/viewer.js:53-54 | Every entry is a declared screen, stored under its own id, with its image resolved against the base address |
| Indexing.ScreenIndexKeyed | skills/product-ui-prototyping/assets/prototype-viewer/viewer.js:49-55 | When every screen has id and image, every indexed screen sits under its own id and has both |
| Indexing.TransitionIndexIsFilter | skills/product-ui-prototyping/assets/prototype-viewer/viewer.js:72-74 | Each screen's list is exactly the subsequence of transitions leaving it, in declaration order. Only screens with outgoing transitions are keys |
| Indexing.TransitionIndexAccepted | skills/product-ui-prototyping/assets/prototype-viewer/viewer.js:61-74 | When every appended transition was accepted, every listed transition sits under its own source and leads between known screens |
| Indexing.BuildIndexesConsistent | skills/product-ui-prototyping/assets/prototype-viewer/viewer.js:45-76 | Whatever the outcome, even a rejection half way, the screens sit under their own ids and no listed edge dangles |
| Indexing.BuildIndexesAtBadScreen | skills/product-ui-prototyping/assets/prototype-viewer/viewer.js:46-52 | At the first screen without id or image, indexing fails. Only the screens before it are indexed, and the transition map is empty |
| Indexing.BuildIndexesAtStart | skills/product-ui-prototyping/assets/prototype-viewer/viewer.js:57-59 | With all screens good but the start screen not among them, indexing fails with every screen indexed and no transitions |
| Indexing.BuildIndexesAtBadTransition | skills/product-ui-prototyping/assets/prototype-viewer/viewer.js:61-70 | At the first rejected transition, indexing fails with that transition's error. Every screen is indexed, plus the transitions before it |
| Indexing.BuildIndexesComplete | skills/product-ui-prototyping/assets/prototype-viewer/viewer.js:45-76 | With everything accepted, indexing succeeds with the full screen index and the full transition index |
| Indexing.IndexSucceedsIff | skills/product-ui-prototyping/assets/prototype-viewer/viewer.js:45-76 | Indexing succeeds exactly when every screen has id and image, the start screen is a declared id, and every transition is complete with known ends |
| Indexing.IndexedGraphIsClosed | skills/product-ui-prototyping/assets/prototype-viewer/viewer.js:57-74 | After success: the screen keys are the declared ids and include the start screen; the transition keys are the source ids; each list is the declaration-order filter; no edge dangles |
| Indexing.IndexReportsFirstFailure | skills/product-ui-prototyping/assets/prototype-viewer/viewer.js:49-70 | The error is the first failure in checking order. A bad screen anywhere beats everything. An unknown start screen comes next. Otherwise the error is that of the first rejected transition |
| Navigation.Navigate | skills/product-ui-prototyping/assets/prototype-viewer/viewer.js:149-153 | Moves to the target. Keeps the old stack as a prefix, growing it by one exactly when a current id was set. Keeps the stack free of empty ids |
| Navigation.Back | skills/product-ui-prototyping/assets/prototype-viewer/viewer.js:158-164 | With an empty stack nothing changes. Otherwise the stack shrinks by one and stays a prefix of the old one, and on a well-formed state the current id becomes the popped top. `Navigation.BackUndoesNavigate` proves it undoes `Navigate` |
| Navigation.MovesKeepWellFormed | skills/product-ui-prototyping/assets/prototype-viewer/viewer.js:149-166 | Navigating and going back keep every id on the history stack non-empty |
| Navigation.BackPops | skills/product-ui-prototyping/assets/prototype-viewer/viewer.js:158-164 | On a well-formed state with a non-empty stack, going back moves to the top id and pops it |
| Navigation.BackOnEmptyHistory | skills/product-ui-prototyping/assets/prototype-viewer/viewer.js:158-162 | Going back with an empty history changes neither the current screen nor the history |
| Navigation.BackUndoesNavigate | skills/product-ui-prototyping/assets/prototype-viewer/viewer.js:149-165 | When a current screen is set, navigating anywhere and then going back restores both the current screen and the history |
| Navigation.FollowHistory | skills/product-ui-prototyping/assets/prototype-viewer/viewer.js:149-153 | After a walk through set ids, the current screen is the last target. The history is the old history, then the old current screen, then every target but the last, in order |
| Navigation.BackTimesUndoesFollow | skills/product-ui-prototyping/assets/prototype-viewer/viewer.js:149-165 | After any walk through set ids, going back once per step returns exactly to the starting state |
| PrototypeViewer.Viewer.constructor | skills/product-ui-prototyping/assets/prototype-viewer/viewer.js:2-9 | Initial state: no flow map or URL, empty maps, no current screen, empty history |
| PrototypeViewer.Viewer.CurrentView | skills/product-ui-prototyping/assets/prototype-viewer/viewer.js:135-140 | A view exists exactly when the current id is indexed. Its screen is that id's map entry, which carries the id and has an image. Its transitions are the whole list stored for the id (empty when there is none), which after a load is the declaration-order filter of `Indexing.TransitionIndexIsFilter`. Every offered transition leaves the current screen, has a trigger and leads to an indexed screen |
| PrototypeViewer.Viewer.IndexFlowMap | skills/product-ui-prototyping/assets/prototype-viewer/viewer.js:45-76 | The verdict and both maps afterwards are those of `BuildIndexes`, partial state included. Navigation state is untouched and the state invariant is kept |
| PrototypeViewer.Viewer.InsertScreens | skills/product-ui-prototyping/assets/prototype-viewer/viewer.js:49-55 | Returns the position of the first screen without id or image. Leaves the screen map equal to the index of the screens before it |
| PrototypeViewer.Viewer.AppendTransitions | skills/product-ui-prototyping/assets/prototype-viewer/viewer.js:61-75 | Returns the first rejected transition's error, or none. Leaves the transition map equal to the index of the transitions before it |
| PrototypeViewer.Viewer.NavigateTo | skills/product-ui-prototyping/assets/prototype-viewer/viewer.js:149-156 | The current screen becomes the target, which is not looked up. The old current id is pushed only if it was set. Nothing else changes |
| PrototypeViewer.Viewer.GoBack | skills/product-ui-prototyping/assets/prototype-viewer/viewer.js:158-166 | Pops the stack and moves to the popped id. Reports whether there was one. With an empty stack nothing changes |
| PrototypeViewer.Viewer.LoadFlowMap | skills/product-ui-prototyping/assets/prototype-viewer/viewer.js:178-184 | Shape failure: nothing changes. Index failure: the maps are as the indexer left them, and flow map, URL, current screen and history are unchanged. Success: the state is the index of the document, `start_screen` and an empty history, whatever came before (so loading twice gives the same state). The current view is then the start screen with exactly its outgoing transitions in declaration order |
| Scenarios.DanglingTargetIsNamed | skills/product-ui-prototyping/assets/prototype-viewer/viewer.js:68-70 | A two-screen map whose transition targets "missing" fails, and the error names "missing" |
| Scenarios.HomeDetailIndexes | skills/product-ui-prototyping/assets/prototype-viewer/viewer.js:45-76 | The two-screen map indexes cleanly, and the transition map built for it lists exactly one transition under "home", the tap_card edge |

## Left out

- Fetching the document is not modelled: the `fetch` call, the `response.ok` test, JSON parsing, the `async`/`await` structure, and the `try`/`catch` that turns errors into a status line and a console log (viewer.js:168-177, 186-189). `LoadFlowMap` receives the parsed document and its resolved address.
- Resolving the map path against the page address (`new URL(mapPath, window.location.href)`) and image URLs is a foreign library call. Image resolution is the parameter `resolve`, and the map's address is the parameter `url`.
- DOM rendering and event wiring are not modelled: `setStatus`, `renderMeta`, `renderHotspots`, `renderTransitionList`, the drawing part of `renderCurrentScreen`, `toggleHotspots`, and the listeners. They have no state beyond the page. `CurrentView` models only the two lookups rendering starts from.
- Status messages are not modelled. Only the error texts are kept, as `Message()` on the error types.
- Indexing.ScreenIndex: a failing image resolution is not modelled. `new URL(screen.image, flowMapUrl)` throws for references such as `//` or `http://a b`, and the indexer then stops at that screen. The screens before it stay indexed, the load is rejected and the navigation state is kept. Here `resolve` is a total function, so `Indexing.BuildIndexes`, `Indexing.IndexSucceedsIff` and `PrototypeViewer.Viewer.LoadFlowMap` report success for such a document. URL parsing is a foreign library call.
- Hotspot rectangles and any extra screen fields copied by `{ ...screen }` are only passed through to drawing, so they are not modelled.
- A `null` element in `screens` or `transitions` throws a type error in the source. The model's screens and transitions are always records, so that path is not modelled. The state it leaves is the same as for a screen without id or image, or an incomplete transition; only the message differs.
- Non-string ids, images, triggers and labels (numbers, objects) are not modelled. They would be judged by JavaScript truthiness; a string field is present exactly when it is non-empty.
- The indexer's two `forEach` loops are written as the methods `InsertScreens` and `AppendTransitions`, which `IndexFlowMap` calls in turn. A throw inside a loop is a return of the failing position or error.
- The model has no load-generation counter for overlapping loads and no check on navigation targets, because the code has neither.
