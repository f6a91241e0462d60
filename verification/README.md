# Frame-based game skeleton: verified model of its core

The repository is a small Python game skeleton that runs in the browser. Its
core, modelled here, is made of five parts:

- **Value objects** (`Values`): positions, sizes and axis-aligned rectangles,
  with edge, centre, containment and intersection queries, plus colours and
  fonts that reject out-of-range arguments.
- **Input vocabulary** (`Input`): the abstract key codes (`VirtualKey`), the
  press/release/repeat states, the event record `OperationParam`, and
  `InputEvent`, a registry that maps each key to at most one callback.
- **Frames** (`Frames`): rectangles in a parent/child tree, each with its own
  registry. `Frame.ProcessInput` dispatches an event to the children first,
  last-added (topmost) first, and stops at the first subtree that handles it.
  Only then does the frame try its own registry, and only when the event has
  no position or its position lies inside the frame's rectangle.
- **Game model** (`Game`): elapsed time, the last pointer position and, for
  each key, whether its latest event was a fresh press (a release or an
  auto-repeat stores false). A press of S saves the time through a repository; a press of
  L loads it back.
- **Browser controller** (`Controller`): the mouse-button and key tables, and
  how each browser event becomes an `OperationParam` handed to the model.

How the model is built:

- Frames, registries, the game model and the controller are classes whose
  methods update their fields in place.
- Frame dispatch is specified by `Run`/`RunRange`, a ghost trace
  function. It gives whether the event was consumed and which frames'
  registries were consulted, in order. `Frame.ProcessInput` returns both the
  verdict and, as a ghost result, the frames it consulted, and the pair is
  proved equal to `Run`.
- Every frame belongs to a ghost universe `U` with a validity invariant
  `Valid(U)`:
  - every listed child names the frame as its parent, and every parent is in the universe;
  - depths grow by one from parent to child;
  - no child appears twice;
  - registries are not shared.
- Coordinates and time are real numbers.
- Each error the source raises becomes a failed result: an `Err` value, or
  `ok == false` with no change of state.

## Model

| member | source | states |
|---|---|---|
| `Values.Rect.Center` | src/values.py:48-52 | the centre lies halfway between the left and right edges and halfway between the top and bottom edges |
| `Values.EdgesAndContainment` | src/values.py:32-58 | `Rect.Left`/`Top` are the corner coordinates and `Rect.Right`/`Bottom` the corner plus the size; `Rect.ContainsPoint` holds exactly when the point lies between these edges, edges included |
| `Values.CornersAndCenterInside` | src/values.py:32-58 | a rectangle of non-negative size contains its four corners and its centre |
| `Values.SampleRect` | tests/test_values.py:24-37 | the rectangle (10, 20, 30, 40) has edges 10, 40, 20, 60 and centre (25, 40), contains (10, 20), (40, 60) and (11, 21), and excludes (9, 19) and (41, 61) |
| `Values.IntersectsSymmetric` | src/values.py:60-64 | `Rect.IntersectsWithRect` does not depend on which rectangle is asked |
| `Values.CommonPointIntersects` | src/values.py:54-64 | whatever their sizes, two rectangles that both contain some point intersect |
| `Values.NegativeWidthIntersectsWithoutCommonPoint` | src/values.py:54-64 | a rectangle of width -10 contains no point yet intersects a rectangle of width 20, so the converse needs non-negative sizes |
| `Values.IntersectsIffCommonPoint` | src/values.py:54-64 | for non-negative sizes, two rectangles intersect exactly when some point lies in both, edges included |
| `Values.NewColor` | src/values.py:70-83 | as written: succeeds exactly when red, green and blue lie in 0..255, whatever alpha is; the colour keeps the four arguments, and alpha defaults to 255 |
| `Values.NewColorAlphaUnchecked` | src/values.py:77-83 | an alpha of 300 is accepted and stored unchanged; the default alpha is 255; a negative red is rejected |
| `Values.NewColorChecked` | src/values.py:70-83 | the intended constructor: succeeds exactly when all four components lie in 0..255, and then agrees with `NewColor` |
| `Values.NewFont` | src/values.py:105-113 | succeeds exactly when the size is positive and the name is non-empty; the font keeps its arguments and bold defaults to false |
| `Input.StatePredicates` | src/input.py:94-111 | the state predicates `OperationParam.IsPress`/`IsRelease`/`IsRepeat` each hold exactly for their state, exactly one of them holds, and an event built without a position has none |
| `Input.InputEvent.constructor` | src/input.py:122-123 | a new registry is empty |
| `Input.InputEvent.Process` | src/input.py:125-135 | false when no callback is registered for the event's key; otherwise exactly the registered callback's answer |
| `Input.InputEvent.Connect` | src/input.py:137-145 | fails, keeping the earlier callback, when the key is already registered; otherwise registers the callback, after which events with that key get its answer and no other key changes |
| `Input.InputEvent.Disconnect` | src/input.py:147-152 | fails when the key is not registered; removes the key, after which its events are not handled, and no other key changes |
| `Input.InputEvent.DisconnectAll` | src/input.py:154-156 | empties the registry, after which no event is handled |
| `Frames.NeedProcessGate` | src/frame.py:54-61 | `NeedProcess`: an event without a position always concerns the frame; one with a position concerns it exactly when the point lies between its edges |
| `Frames.Frame.constructor` | src/frame.py:11-18 | a new frame has the given rectangle and parent, no children and an empty registry of its own; it is appended to the parent's children; the tree stays valid |
| `Frames.Frame.Append` | src/frame.py:20-24 | fails, changing nothing, when the child is already present; otherwise the child is added after the existing children; the tree stays valid |
| `Frames.Frame.ConnectInput` | src/frame.py:26-28 | registers in the frame's own registry with the registry's success rule |
| `Frames.Frame.DisconnectInput` | src/frame.py:30-32 | removes the key from the frame's own registry, failing when it is absent |
| `Frames.Frame.DisconnectInputAll` | src/frame.py:34-36 | ignores its key argument and empties the frame's registry, after which no event is handled |
| `Frames.Frame.ProcessInput` | src/frame.py:38-52 | the returned verdict and the ghost list of consulted frames together equal the trace specification `Run` for this frame's subtree |
| `Frames.RangeConsumedIffSomeChild` | src/frame.py:45-47 | a walk over children consumes the event exactly when one of the child subtrees it covers consumes it |
| `Frames.RunStopsAtFirstAccept` | src/frame.py:38-52 | every consulted frame belongs to the tree, is at least as deep as the frame and concerns the event; all but the last declined; the event is consumed exactly when the last one handled it, so no registry is asked after the first acceptance |
| `Frames.RangeStopsAtFirstAccept` | src/frame.py:45-47 | the same stop-at-first-acceptance property for a walk over the children |
| `Frames.RunAsksOnlySubtree` | src/frame.py:38-52 | every frame the dispatch from a frame consults lies in its subtree: following parent links from it reaches that frame |
| `Frames.RangeAsksOnlySubtree` | src/frame.py:45-47 | the same for a walk over the children: every consulted frame lies under the frame whose children are walked |
| `Frames.FirstConsumerWins` | src/frame.py:45-47 | when child j consumes the event and no later child does, the dispatch consumes it after consulting exactly the later children's subtrees and then child j's, never the frame's own registry |
| `Frames.TopmostChildWins` | src/frame.py:45-47 | when the last-added child consumes the event, the whole dispatch is exactly that child's dispatch |
| `Frames.OutsideRectNotAsked` | src/frame.py:49-51 | when no child consumes a positioned event outside the frame's rectangle, the frame does not consume it and its registry is not consulted |
| `Frames.SelfDispatchWhenEligible` | src/frame.py:49-52 | when no child consumes an event that concerns the frame, the result is the frame's registry answer and the frame is consulted last |
| `Frames.UnpositionedEventReachesChild` | src/frame.py:38-61 | an event without a position that child j's own registry handles, when no later sibling and none of child j's children consume it, is consumed by the parent's dispatch |
| `Frames.ChildHitAreaNotClipped` | src/frame.py:38-61 | a child that handles a point outside its parent's rectangle still makes the parent's dispatch consume the event |
| `Frames.SingleFrameScenario` | tests/test_frame.py:13-28 | a frame (10, 20, 30, 40) listening to the left button handles a press at (11, 21) and not one at (9, 19) |
| `Frames.ParentAndChildScenario` | tests/test_frame.py:30-40 | a child frame is listed under its parent, and an unpositioned middle-button press given to the parent is handled by the child |
| `Game.Repository.constructor` | src/model.py:8-15 | the repository collaborator: a new one has received no requests and answers loads with the given value |
| `Game.GameModel.constructor` | src/model.py:24-29 | time 0, pointer at (0, 0), no keys recorded, the given repository |
| `Game.GameModel.Update` | src/model.py:31-36 | the time grows by delta; nothing else changes |
| `Game.GameModel.Operate` | src/model.py:38-49 | a pointer move records the event's position (possibly none) and nothing else; any other key records whether it is now pressed, and a press of S saves the old time, a press of L replaces the time by the repository's answer; without a repository no request is made and the time stays |
| `Game.GameModel.Save` | src/model.py:51-54 | with a repository, one save request carrying the current time is added |
| `Game.GameModel.Load` | src/model.py:56-60 | with a repository, one load request is added and the time becomes the repository's answer; otherwise nothing changes |
| `Game.StorageRequests` | src/model.py:44-47 | at most one request: a save of the time exactly for a press of S, a load exactly for a press of L, and no request for any other event, including a release or a repeat |
| `Game.ClockAndPointerScenario` | tests/test_model.py:12-24 | a new model starts at time 0, is at time 1 after a one-second update, and then records a pointer move to (10, 20) |
| `Controller.KeyToVk` | src/pyscript_controller.py:81-88 | Dummy exactly for a name the key table does not list; otherwise the table's code, whose name is the given key |
| `Controller.KeyTableRoundTrip` | src/pyscript_controller.py:27-78 | `KeyTable` maps a name to a code exactly when that code's name is that name |
| `Controller.CharKeyRoundTrip` | src/pyscript_controller.py:30-77 | the same inverse relation for the one-character names (space, letters, digits) |
| `Controller.NameKinds` | src/pyscript_controller.py:27-78 | no code has both a one-character name and a longer one, and the longer names are longer than one character |
| `Controller.KeyTableInjective` | src/pyscript_controller.py:27-78 | no two browser keys map to the same code |
| `Controller.KeyTableCodes` | src/pyscript_controller.py:27-78 | the key table yields neither Dummy, nor a mouse code, nor a keypad code |
| `Controller.MouseButtonTableContents` | src/pyscript_controller.py:18-24 | `MouseButtonTable`: buttons 0 to 4 map in order to left, middle, right, back and next; no other button is listed |
| `Controller.MouseEventTranslation` | src/pyscript_controller.py:101-119 | `MouseDownParam`/`MouseUpParam` give an event without a position that is a press or a release of the code `MouseButtonTable` lists for the button, and fail for an unlisted button; `MouseMoveParam` gives a MouseMove press at the pointer's coordinates |
| `Controller.KeyEventTranslation` | src/pyscript_controller.py:121-136 | the `KeyDownParam` event is a repeat exactly when the browser flags it and a press otherwise; the `KeyUpParam` event is a release; both carry the key table's code, no position and no mouse code |
| `Controller.GameController.constructor` | src/pyscript_controller.py:94-99 | the controller forwards to the given model |
| `Controller.GameController.MouseDown` | src/pyscript_controller.py:101-105 | fails, changing nothing, for an unlisted button; otherwise the button's code is recorded as held; time, pointer, repository requests and repository answer stay |
| `Controller.GameController.MouseUp` | src/pyscript_controller.py:107-111 | fails, changing nothing, for an unlisted button; otherwise the button's code is recorded as released; time, pointer, repository requests and repository answer stay |
| `Controller.GameController.MouseMoved` | src/pyscript_controller.py:113-119 | the pointer position becomes the event's coordinates; keys, time, repository requests and repository answer stay |
| `Controller.GameController.KeyDown` | src/pyscript_controller.py:121-130 | the key's code is recorded as held for a fresh press and as not held for an auto-repeat; the pointer stays; a fresh S adds a save of the old time, a fresh L adds a load and takes the repository's answer as the time; the repository's answer stays |
| `Controller.GameController.KeyUp` | src/pyscript_controller.py:132-136 | the key's code is recorded as released; pointer, time, repository requests and repository answer stay |

## Left out

- Frames.Frame.Append: requires that the child names this frame as its parent. The source accepts any frame, but it only ever appends from the constructor, and appending a foreign frame could build a cycle on which dispatch would recurse forever.
- Callbacks are pure functions from an event to a verdict. What a callback does besides answering is not modelled.
- The repository's storage, key name and string/float conversion are not modelled. `Repository` records the requests it receives and answers loads with a fixed value.
- The repository implementation (src/pyscript_repository.py), the view and renderers (src/view.py, src/pyscript_view.py) and the application loop (src/pyscript_app.py) are not part of this model. Neither are console logging and `print`.
- Float arithmetic is not modelled: coordinates and time are real numbers.
- The browser `MouseEvent`/`KeyboardEvent` objects are reduced to the fields the controller reads.
- The Python `KeyError` for an unlisted mouse button becomes an `ok == false` result that leaves the model unchanged.
- The key dictionary is written as a lookup function split into one-character names and longer names. Both parts are listed entry by entry, and `KeyName` reads them backwards.
- The controller's `ValueError` for a missing model cannot arise: the model parameter is a non-null reference.
- The frame's `position`, `size`, `rect` and `parent` accessors are the frame's constant fields, read directly.
- Frame registries are fresh objects and never shared. A callback is not modelled as able to reach back into the frame tree.

## Findings

| source | as written | input that shows it | evidently intended | confidence | as-written member | corrected member |
|---|---|---|---|---|---|---|
| src/values.py:77 | the fourth range check of the colour constructor re-tests red, so alpha is never checked | `Color(10, 20, 30, 300)` is accepted with alpha 300 | the fourth check tests alpha, rejecting values outside 0..255 | high (not executed) | `Values.NewColorAlphaUnchecked` | `Values.NewColorChecked` |
