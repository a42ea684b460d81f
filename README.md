# medview UIKit core, modelled in Dafny

This project models the interaction core of the medview UI kit (`packages/uikit`) and the
volume renderer component of `packages/medview-core`, and proves properties of that model:

- **UIKit pointer dispatch** (`Kit`). It covers pointer down, up, move, cancel and wheel
  handling, and gesture detection. The quad-tree query is filtered to visible components. A
  press runs `applyEventEffects` and then the component's handler, in hit order. A pointer move
  turns into enter/move/leave calls computed against the previous hover set. Pointer-up is
  debounced at 200 ms. `getComponents` filters by tag.
- **BaseUIComponent** (`BaseComponent`). Event effects are registered, applied (set, toggle,
  animate), and fired by lower-cased event name. Event listeners are added and removed. The
  module also covers bounds and position, alignment inside a container, and fitting to bounds.
- **uiutils** (`UiUtils`). `isEqual` on nested values; `setObjectProperty` and
  `getObjectProperty` with their setter/getter fallback.
- **Containers** (`Containers`). It covers the linear layout (padding, spacing, horizontal or
  vertical) and adding and removing children. When a container adopts a kit's quad tree, its
  children move into that tree.
- **Widgets** (`Toggle`, `Button`, `Slider`, `InputTextBox`). These are the toggle's
  pointer-up flip and knob animation, the button's hover and press effects, and the slider's
  knob hit test and dragged value. The text box has a cursor editor (insert, backspace, delete,
  arrows) and a blinking cursor.
- **Volume renderer** (`VolumeRenderer`). Drag-to-rotate, wheel zoom clamped to the scale
  range, and the initial scale derived from the volume's extent.
- **Colour tables** (`Colortables`). The colormap registry with case-insensitive lookup and a
  grayscale fallback. `makeLut` does piecewise-linear interpolation between control points into
  a 256-entry RGBA table. `makeLabelLut` builds dense label tables, and `makeDrawLut` builds the
  256-entry drawing table.

Component state that the source updates in place is modelled by classes with `modifies`
frames. Calls into the canvas, the renderer and component handlers are recorded in call logs
(`calls`, `log`, `gestures`), and the methods state what they append to those logs; the
gaps are listed under "Left out". Pure
computations are functions. Each function is partnered by lemmas (round trips, inverses,
invariants) or by a method that is proved equal to it. `Uint8ClampedArray` stores are modelled
as explicit clamping and round-half-to-even (`ClampedByte`).

## Model

| member | source | states |
|---|---|---|
| Types.Clamp | packages/uikit/src/components/slider-component.ts:95 | The result lies in [lo, hi], is v when v is already inside, and is the violated bound otherwise |
| Collections.IndexOf | packages/uikit/src/components/base-container-component.ts:67 | Result is -1 exactly when x is absent; otherwise it is the first index holding x |
| Collections.RemoveFirst | packages/uikit/src/components/base-container-component.ts:67-69 | The splice removes exactly one occurrence of a present element (multiset minus {x}) and leaves the sequence unchanged when x is absent |
| Collections.RemoveFirstDistinct | packages/uikit/src/components/base-container-component.ts:66-75 | Removing from a duplicate-free sequence keeps it duplicate-free and leaves no copy of x |
| Collections.Dedup | packages/uikit/src/uikit.ts:333 | The `Set` built from the hits is duplicate-free and has the same elements as the hits |
| UiUtils.IsEqualReflexive | packages/uikit/src/uiutils.ts:31-42 | isEqual(v, v) holds for every value |
| UiUtils.IsEqualSymmetric | packages/uikit/src/uiutils.ts:31-42 | isEqual is symmetric |
| UiUtils.IsEqualExact | packages/uikit/src/uiutils.ts:31-42 | isEqual holds exactly when the two values are structurally identical |
| UiUtils.IsEqualArrays | packages/uikit/src/uiutils.ts:32-36 | Arrays of different lengths are unequal; arrays of equal length are equal iff they are equal element by element |
| UiUtils.Capitalised | packages/uikit/src/uiutils.ts:7 | Capitalising keeps the length and every character after the first, and upper-cases the first (ASCII), so it is never a lower-case letter |
| UiUtils.CapitalisedIdempotent | packages/uikit/src/uiutils.ts:7 | Capitalising an already capitalised name changes nothing |
| UiUtils.WrittenPresent | packages/uikit/src/uiutils.ts:2-3 | Writing an own property replaces that field only; methods and all other properties are unchanged |
| UiUtils.WriteThenRead | packages/uikit/src/uiutils.ts:16-18 | Reading back a property just written to an own field yields the written value |
| UiUtils.WrittenThroughSetter | packages/uikit/src/uiutils.ts:6-9 | Without an own property, the write goes through `set<Name>`: the setter's backing field holds the value, and every other field and every method are unchanged |
| UiUtils.WrittenNowhere | packages/uikit/src/uiutils.ts:10-12 | With neither the property nor a setter, the write leaves the object unchanged |
| UiUtils.ReadNowhere | packages/uikit/src/uiutils.ts:20-27 | With neither the property nor a getter, the read yields null |
| UiUtils.ReadThroughGetter | packages/uikit/src/uiutils.ts:20-22 | Without an own property, the read returns what `get<Name>` returns |
| UiUtils.SetObjectProperty | packages/uikit/src/uiutils.ts:1-14 | The object's new state is the old state written at the property, through the setter when there is one |
| Animations.AnimationManager.AddAnimation | packages/uikit/src/components/base-ui-component.ts:169-181 | The animation is appended to the manager's list |
| Animations.AnimationManager.RemoveAnimation | packages/uikit/src/components/input-text-box-component.ts:127-132 | The first occurrence of the animation is removed from the manager's list |
| BaseComponent.MakeEffect | packages/uikit/src/components/base-ui-component.ts:222-257 | The effect's variant is the one the kind names; `valueOrFrom` becomes `value`, `value1` or `from`; `to` becomes `value2` or `to`; duration, bounce and toggle flags are kept where the variant has them; target, property and `onComplete` are always kept |
| BaseComponent.RegisteredAppends | packages/uikit/src/components/base-ui-component.ts:259-262 | Registering appends the effect to the event's own list, creating the list when missing, and leaves every other event's list unchanged |
| BaseComponent.ToggleTwice | packages/uikit/src/components/base-ui-component.ts:185-191 | A toggle effect applied twice restores a property holding either toggle value; a property holding neither value becomes value1 and then value2 |
| BaseComponent.LowerNoUpper | packages/uikit/src/components/base-ui-component.ts:271 | The lower-cased name has no upper-case letter, every other character is kept, each upper-case letter becomes its lower-case partner, and a name is its own lower-case form iff it has no upper-case letter |
| BaseComponent.LowerIdempotent | packages/uikit/src/components/base-ui-component.ts:271 | Lower-casing twice is lower-casing once |
| BaseComponent.UppercaseKeysNeverFire | packages/uikit/src/components/base-ui-component.ts:266-272 | A key registered with an upper-case letter never matches a lower-cased event name, so its effects never fire |
| BaseComponent.Without | packages/uikit/src/components/base-ui-component.ts:318-326 | The filtered listener list drops every copy of the callback and keeps every copy of every other callback (as multisets) |
| BaseComponent.WithoutAppend | packages/uikit/src/components/base-ui-component.ts:318-326 | Filtering keeps the order of what stays: filtering a concatenation concatenates the filtered parts |
| BaseComponent.WithoutAbsent | packages/uikit/src/components/base-ui-component.ts:318-326 | Removing a callback that is not registered leaves the list as it was |
| BaseComponent.ResizeCallsAppend | packages/uikit/src/components/base-ui-component.ts:304-309 | A resize over a list made of two parts calls the first part's listeners, then the second's |
| BaseComponent.ResizeCallsCount | packages/uikit/src/components/base-ui-component.ts:304-309 | A resize calls each listener once per registered copy |
| BaseComponent.RemovedListenerNotCalled | packages/uikit/src/components/base-ui-component.ts:304-326 | After a listener is removed, a resize never calls it and calls every other listener as often as before |
| BaseComponent.AlignmentMargins | packages/uikit/src/components/base-ui-component.ts:76-125 | Each alignment point leaves the offset as margin to the matching container edges, centres on the other axis, shifts TOPCENTER right by the offset, and puts NONE at the container origin |
| BaseComponent.FittedBoundsFit | packages/uikit/src/components/base-ui-component.ts:127-147 | The scaled bounds fit inside the target, touch it in one dimension, are centred and keep the aspect ratio |
| BaseComponent.BaseUIComponent.constructor | packages/uikit/src/components/base-ui-component.ts:58-74 | Each configured field is taken from the configuration, or from its documented default when absent |
| BaseComponent.BaseUIComponent.AddEventEffect | packages/uikit/src/components/base-ui-component.ts:199-264 | The effect built from the arguments is appended to the event's list |
| BaseComponent.BaseUIComponent.ApplyEffect | packages/uikit/src/components/base-ui-component.ts:149-197 | The target's new state, the redraw calls and the animations started are exactly those of the effect's kind |
| BaseComponent.BaseUIComponent.ApplyEffects | packages/uikit/src/components/base-ui-component.ts:273-276 | Applying a list gives every target the state of its effects in order, and logs their calls and animations in order |
| BaseComponent.BaseUIComponent.ApplyNth | packages/uikit/src/components/base-ui-component.ts:273-276 | One loop step extends the progress of the list by one effect |
| BaseComponent.BaseUIComponent.ApplyEventEffects | packages/uikit/src/components/base-ui-component.ts:266-301 | The effects under the lower-cased event name are applied in order, then the matching `on…` handler is called; no event listener is called |
| BaseComponent.BaseUIComponent.AddEventListener | packages/uikit/src/components/base-ui-component.ts:311-316 | The callback is appended to the event's listener list, which is created if missing |
| BaseComponent.BaseUIComponent.RemoveEventListener | packages/uikit/src/components/base-ui-component.ts:318-326 | The event's list loses the callback; other events are unchanged |
| BaseComponent.BaseUIComponent.SetBounds | packages/uikit/src/components/base-ui-component.ts:332-340 | The bounds are replaced, the position follows their corner, and the resize listeners are called in registration order; no redraw is requested |
| BaseComponent.BaseUIComponent.SetPosition | packages/uikit/src/components/base-ui-component.ts:346-349 | The position moves, the bounds move with it keeping their size, and the resize listeners are called in order; no redraw is requested |
| BaseComponent.BaseUIComponent.Align | packages/uikit/src/components/base-ui-component.ts:76-125 | The new position is the aligned position inside the container; the size is unchanged |
| BaseComponent.BaseUIComponent.FitBounds | packages/uikit/src/components/base-ui-component.ts:127-147 | Scale and bounds become the fitted ones, and the resize listeners fire |
| SpatialIndex.Hits | packages/uikit/src/uikit.ts:202 | A point query returns exactly the elements whose bounds contain the point |
| SpatialIndex.Overlapping | packages/uikit/src/uikit.ts:268-269 | A rectangle query returns exactly the elements whose bounds meet the rectangle |
| SpatialIndex.QuadTree.constructor | packages/uikit/src/components/base-container-component.ts:26-27 | A new tree has the given boundary and no elements |
| SpatialIndex.QuadTree.Insert | packages/uikit/src/components/base-container-component.ts:63 | Insertion appends the element |
| SpatialIndex.QuadTree.Remove | packages/uikit/src/components/base-container-component.ts:70 | Removal drops the element's first occurrence |
| SpatialIndex.QuadTree.UpdateBoundary | packages/uikit/src/uikit.ts:235-236 | The boundary is replaced |
| Containers.OffsetsSeparate | packages/uikit/src/components/base-container-component.ts:82-103 | With non-negative spacing, each child's slot ends at least `spacing` before any later child's slot begins: children never overlap |
| Containers.Slot | packages/uikit/src/components/base-container-component.ts:91-101 | Every child sits at the padding on the cross axis |
| Containers.AlignmentOffsetPlaces | packages/uikit/src/components/base-container-component.ts:172-221 | Each alignment point puts the child flush with the matching container edge, or centred |
| Containers.Extents | packages/uikit/src/components/base-container-component.ts:96-102 | The extent of each child is its width in a row and its height in a column |
| Containers.BaseContainerComponent.Sizes | packages/uikit/src/components/base-container-component.ts:96-102 | The container's children's extents along its axis |
| Containers.BaseContainerComponent.constructor | packages/uikit/src/components/base-container-component.ts:19-33 | An empty container with an empty tree over the canvas, and the orientation, padding and spacing defaults |
| Containers.BaseContainerComponent.UpdateLayout | packages/uikit/src/components/base-container-component.ts:77-109 | Every child is placed at its slot with its size unchanged, and each child's resize listeners are called exactly once (children with the base `getBounds`; see Left out) |
| Containers.BaseContainerComponent.PlaceAll | packages/uikit/src/components/base-container-component.ts:91-103 | The layout loop takes the children from untouched to all placed and each called once |
| Containers.BaseContainerComponent.PlacedAllLaidOut | packages/uikit/src/components/base-container-component.ts:77-109 | Once every child is placed with the extents it had, the container is laid out |
| Containers.BaseContainerComponent.PlaceChild | packages/uikit/src/components/base-container-component.ts:91-103 | One loop step places one more child, runs its resize listeners once (base `getBounds`), leaves the others alone and advances the offset to the next slot |
| Containers.BaseContainerComponent.AddComponent | packages/uikit/src/components/base-container-component.ts:53-64 | The child is appended and inserted in the tree and fitted to the container's bounds with the base `fitBounds`; under explicit bounds it stays at the fitted bounds with its position at their corner; its resize listeners run twice for the fit and once more when the layout is redone, which happens when the bounds were not set explicitly and also runs every earlier child's listeners once |
| Containers.BaseContainerComponent.AppendChild | packages/uikit/src/components/base-container-component.ts:55-58 | The child is appended; under explicit bounds nothing moves and no listener runs, otherwise all are laid out and each child's resize listeners run once |
| Containers.BaseContainerComponent.RemoveComponent | packages/uikit/src/components/base-container-component.ts:66-75 | A present child leaves the list and the tree and makes no call; the rest are laid out, each running its resize listeners once, unless the bounds were set explicitly; an absent child changes nothing |
| Containers.BaseContainerComponent.SetPosition | packages/uikit/src/components/base-container-component.ts:246-251 | The container moves and its own resize listeners run; unless the bounds were set explicitly its children are laid out again, each running its resize listeners once |
| Containers.BaseContainerComponent.SetQuadTree | packages/uikit/src/components/base-container-component.ts:35-47 | A new tree receives the children after its elements, and the old tree is emptied |
| Containers.BaseContainerComponent.EmptyTree | packages/uikit/src/components/base-container-component.ts:43-45 | The tree is left with no elements |
| Kit.Visible | packages/uikit/src/uikit.ts:202 | The filter keeps exactly the visible components |
| Kit.PressCallsOrder | packages/uikit/src/uikit.ts:360-384 | A press makes two calls per visible hit: its effects, then its handler, in hit order |
| Kit.EnterMoveOne | packages/uikit/src/uikit.ts:331-358 | A component newly hovered gets effects and enter before move; one already hovered gets move only |
| Kit.LeaveOne | packages/uikit/src/uikit.ts:331-358 | A previously hovered component that is no longer hit gets effects and leave; one still hit gets nothing |
| Kit.EnterMoveCounts | packages/uikit/src/uikit.ts:331-358 | Over a distinct hit set, each component is entered once iff newly hovered and moved exactly once |
| Kit.LeaveCounts | packages/uikit/src/uikit.ts:331-358 | Over a distinct hover set, each component is left exactly once iff no longer hit |
| Kit.MoveExactlyOnce | packages/uikit/src/uikit.ts:331-358 | During a move, no component is both entered and left, and each hit component gets exactly one move |
| Kit.WheelCalls | packages/uikit/src/uikit.ts:204-209 | Wheel scrolls go exactly to the visible hits that have a wheel handler |
| Kit.WheelPointAgreement | packages/uikit/src/uikit.ts:199 | The wheel's query point equals the pointer handlers' canvas-relative point exactly when the canvas is at the client origin |
| Kit.Every | packages/uikit/src/uikit.ts:277 | `every` holds iff every requested tag is among the component's tags |
| Kit.Some | packages/uikit/src/uikit.ts:278 | `some` holds iff some requested tag is among the component's tags |
| Kit.TagMatchMeaning | packages/uikit/src/uikit.ts:271-281 | No tags selects untagged components; `useNot` negates; AND needs all tags, OR needs one; AND implies OR |
| Kit.Matching | packages/uikit/src/uikit.ts:271-281 | The filter keeps exactly the candidates whose tags match |
| Kit.UIKit.constructor | packages/uikit/src/uikit.ts:82-100 | A missing device pixel ratio becomes 1; the tree is empty over the canvas in device pixels; the pointer state starts empty with the pan position at (-1, -1) |
| Kit.UIKit.Press | packages/uikit/src/uikit.ts:360-384 | The log gains the press calls for the visible hits at the point |
| Kit.UIKit.PressEach | packages/uikit/src/uikit.ts:363-370 | The loop logs the press calls for the visible components among the hits |
| Kit.UIKit.PressNth | packages/uikit/src/uikit.ts:363-370 | One loop step extends the logged calls by the next hit's calls if it is visible |
| Kit.UIKit.ProcessPointerDown | packages/uikit/src/uikit.ts:360-371 | Pointer-down effects and handlers for the visible hits, in order |
| Kit.UIKit.ProcessPointerUp | packages/uikit/src/uikit.ts:373-384 | Pointer-up effects and handlers for the visible hits, in order |
| Kit.UIKit.ProcessPointerMove | packages/uikit/src/uikit.ts:331-358 | The hover set becomes the deduplicated visible hits; the log gains enter/move for them and then leave for the old ones no longer hit |
| Kit.UIKit.EnterAndMove | packages/uikit/src/uikit.ts:334-348 | The first loop logs the enter and move calls |
| Kit.UIKit.LeaveOld | packages/uikit/src/uikit.ts:349-356 | The second loop logs the leave calls |
| Kit.UIKit.HandlePointerDown | packages/uikit/src/uikit.ts:408-414 | The pointer is recorded at its canvas position, then the press is dispatched there |
| Kit.UIKit.HandlePointerUp | packages/uikit/src/uikit.ts:416-430 | The press is dispatched only when more than 200 ms have passed; the time is stored and the pointer forgotten either way |
| Kit.UIKit.HandlePointerCancel | packages/uikit/src/uikit.ts:432-434 | The pointer is forgotten and nothing is dispatched |
| Kit.UIKit.DetectPan | packages/uikit/src/uikit.ts:475-482 | The pan hook gets the move from the last pan position, which becomes the point |
| Kit.UIKit.DetectGestures | packages/uikit/src/uikit.ts:446-454 | Two pointers pinch or rotate; one pointer pans to its position; any other count does nothing |
| Kit.UIKit.HandlePointerMove | packages/uikit/src/uikit.ts:437-444 | The pointer is recorded, the move is dispatched, then gestures are detected |
| Kit.UIKit.HandleWheel | packages/uikit/src/uikit.ts:195-210 | Every visible component under the scaled client point that has a wheel handler gets the scroll |
| Kit.UIKit.ScrollEach | packages/uikit/src/uikit.ts:204-209 | The loop logs one scroll per visible component with a wheel handler |
| Kit.UIKit.AddComponent | packages/uikit/src/uikit.ts:253-259 | A plain component gets the redraw hook and is appended to the tree |
| Kit.UIKit.AddContainer | packages/uikit/src/uikit.ts:253-259 | A container adopts the kit's tree, so its children go in before it and its old tree is emptied; each child takes the container's previous redraw hook, and the container then gets the kit's |
| Kit.UIKit.GetComponents | packages/uikit/src/uikit.ts:261-282 | Exactly the tree elements, or those meeting the bounds, whose tags match |
| Toggle.ToggleRegistration | packages/uikit/src/components/toggle-component.ts:26-49 | The constructor registers the knob animation and then the toggle of `isOn`, both on pointer-up |
| Toggle.ToggleFlips | packages/uikit/src/components/toggle-component.ts:40-49 | The pointer-up effects flip `isOn` and change no other property |
| Toggle.PointerUpFired | packages/uikit/src/components/toggle-component.ts:53-55 | Pointer-up fires both effects on the toggle's own object: the flip and the knob animation, with no redraw call |
| Toggle.ToggleTwiceRestores | packages/uikit/src/components/toggle-component.ts:40-55 | Two pointer-ups restore the state |
| Toggle.KnobStep | packages/uikit/src/components/toggle-component.ts:180-189 | The knob position stays in [0, 1] |
| Toggle.KnobStepApproaches | packages/uikit/src/components/toggle-component.ts:180-189 | Each step moves the knob toward the target of the on-state without passing it |
| Toggle.DrawnKnob | packages/uikit/src/components/toggle-component.ts:122-130 | The knob is 80% of the height, inset equally, and lies between its off and on extremes, reaching them at 0 and 1 |
| Toggle.ToggleComponent.constructor | packages/uikit/src/components/toggle-component.ts:13-50 | The toggle starts in the given state with the knob at its target and the pointer-up effects registered |
| Toggle.ToggleComponent.Toggle | packages/uikit/src/components/toggle-component.ts:53-55 | The state flips, the knob animation starts and the pointer-up handler is called |
| Toggle.ToggleComponent.HandleMouseClick | packages/uikit/src/components/toggle-component.ts:58-72 | A click inside the closed rectangle toggles it: `isOn` flips, one knob animation starts and the pointer-up handler is called; a click outside changes nothing |
| Toggle.ToggleComponent.SetKnobPosition | packages/uikit/src/components/toggle-component.ts:175-177 | The knob field is replaced; every other field and every method are unchanged |
| Toggle.ToggleComponent.UpdateKnobPosition | packages/uikit/src/components/toggle-component.ts:180-189 | The knob takes one step toward the target and stays in [0, 1]; every other field and every method are unchanged |
| Button.FillColorInert | packages/uikit/src/uiutils.ts:6-12 | Writing `fillColor` to an object without that property or a setter for it leaves the object unchanged |
| Button.ButtonEffectsInert | packages/uikit/src/components/button-component.ts:21-71 | The button's `fillColor` set effects change nothing, so only its scale and position animations have an effect |
| Button.ButtonRegistration | packages/uikit/src/components/button-component.ts:21-71 | The hover, leave, down and up effects are registered per event in source order |
| Button.ButtonComponent.constructor | packages/uikit/src/components/button-component.ts:12-71 | Colour defaults, the click callback and the registered effects |
| Button.ButtonComponent.RegisterEffects | packages/uikit/src/components/button-component.ts:21-71 | Registration yields exactly the button's effect table |
| Button.ButtonComponent.HandleClick | packages/uikit/src/components/button-component.ts:92-97 | The click callback is invoked iff one is set |
| Slider.KnobCentre | packages/uikit/src/components/slider-component.ts:79-82 | The knob centre is defined iff max != min, is vertically centred, and reaches the left end at min and the right end at max |
| Slider.OnKnobCentre | packages/uikit/src/components/slider-component.ts:79-87 | A non-degenerate knob is hit at its own centre; with max == min nothing hits it |
| Slider.RelativePosition | packages/uikit/src/components/slider-component.ts:95 | The relative position lies in [0, 1], is 0 left of the track and 1 right of it, and is proportional in between |
| Slider.DraggedValue | packages/uikit/src/components/slider-component.ts:90-96 | The dragged value lies in [min, max], is min left of the track and max right of it |
| Slider.DrawnValue | packages/uikit/src/components/slider-component.ts:144-146 | The drawn value is clamped into [min, max], and its fraction is in [0, 1] and defined iff max != min |
| Slider.SliderComponent.constructor | packages/uikit/src/components/slider-component.ts:22-41 | The value and range defaults (0.5 in [0, 1]), the bounds from position and size, and not dragging |
| Slider.SliderComponent.HandlePointerDown | packages/uikit/src/components/slider-component.ts:44-49 | Dragging starts iff the pointer is on the knob |
| Slider.SliderComponent.HandlePointerUp | packages/uikit/src/components/slider-component.ts:52-54 | Dragging stops |
| Slider.SliderComponent.HandlePointerMove | packages/uikit/src/components/slider-component.ts:57-64 | While dragging, the value follows the pointer; otherwise nothing changes |
| Slider.SliderComponent.UpdateValueFromPointer | packages/uikit/src/components/slider-component.ts:90-100 | The value becomes the dragged value and a redraw is requested |
| InputTextBox.Insert | packages/uikit/src/components/input-text-box-component.ts:77-82 | The input is spliced in at the cursor and the cursor moves past it (positions count characters; see Left out) |
| InputTextBox.Backspace | packages/uikit/src/components/input-text-box-component.ts:88-94 | The character before the cursor is removed and the cursor moves back; at the start nothing changes |
| InputTextBox.Delete | packages/uikit/src/components/input-text-box-component.ts:101-106 | The character at the cursor is removed; at the end nothing changes |
| InputTextBox.ArrowLeft | packages/uikit/src/components/input-text-box-component.ts:113-115 | The cursor moves left unless it is at the start; the text is unchanged |
| InputTextBox.ArrowRight | packages/uikit/src/components/input-text-box-component.ts:120-122 | The cursor moves right unless it is at the end; the text is unchanged |
| InputTextBox.BackspaceUndoesInsert | packages/uikit/src/components/input-text-box-component.ts:77-94 | Backspace after typing one character restores text and cursor |
| InputTextBox.BackspaceIsLeftThenDelete | packages/uikit/src/components/input-text-box-component.ts:88-115 | Away from the start, backspace equals arrow-left then delete |
| InputTextBox.ArrowRightUndoesLeft | packages/uikit/src/components/input-text-box-component.ts:113-124 | Away from the start, right undoes left |
| InputTextBox.InputTextBoxComponent.constructor | packages/uikit/src/components/input-text-box-component.ts:27-57 | The cursor starts at the end of the text and visible, and the blink animation is registered with the manager |
| InputTextBox.InputTextBoxComponent.BlinkCursor | packages/uikit/src/components/input-text-box-component.ts:50-53 | The cursor visibility flips and a redraw is requested |
| InputTextBox.InputTextBoxComponent.UpdateBounds | packages/uikit/src/components/text-box-component.ts:52-65 | The box keeps its position, takes the measured size of its text, and its resize listeners run |
| InputTextBox.InputTextBoxComponent.HandleInput | packages/uikit/src/components/input-text-box-component.ts:77-86 | The editor state becomes the insertion; the box keeps its position and takes the measured size of the new text, its resize listeners run, then a redraw is requested |
| InputTextBox.InputTextBoxComponent.HandleBackspace | packages/uikit/src/components/input-text-box-component.ts:88-99 | The editor state becomes the backspace result; only when something changed is the box resized to the text, its resize listeners run and a redraw requested |
| InputTextBox.InputTextBoxComponent.HandleDelete | packages/uikit/src/components/input-text-box-component.ts:101-111 | The editor state becomes the delete result; only when something changed is the box resized to the text, its resize listeners run and a redraw requested |
| InputTextBox.InputTextBoxComponent.HandleArrowLeft | packages/uikit/src/components/input-text-box-component.ts:113-118 | The cursor moves left; a redraw is requested only when it moved |
| InputTextBox.InputTextBoxComponent.HandleArrowRight | packages/uikit/src/components/input-text-box-component.ts:120-125 | The cursor moves right; a redraw is requested only when it moved |
| InputTextBox.InputTextBoxComponent.Destroy | packages/uikit/src/components/input-text-box-component.ts:127-132 | The blink animation is removed from the manager, leaving none of it when it was registered once |
| VolumeRenderer.Rotated | packages/medview-core/src/components/volume-renderer-component.ts:172-177 | Dragging rotates about x and y only, and a zero drag leaves the rotation unchanged |
| VolumeRenderer.RotatedTelescopes | packages/medview-core/src/components/volume-renderer-component.ts:167-180 | Two successive drags rotate as much as one drag over the whole distance |
| VolumeRenderer.InitialScale | packages/medview-core/src/components/volume-renderer-component.ts:43-51 | Defined iff the largest extent is non-zero; the scale times the largest extent is 2/3, and the range brackets the scale |
| VolumeRenderer.Zoomed | packages/medview-core/src/components/volume-renderer-component.ts:192-199 | The zoomed scale stays in [minScale, maxScale]; scrolling up never shrinks it and scrolling down never grows it |
| VolumeRenderer.VolumeRendererComponent.constructor | packages/medview-core/src/components/volume-renderer-component.ts:28-52 | Zero rotation and offset, not dragging, the initial scale and range, and the pointer and wheel handlers registered |
| VolumeRenderer.VolumeRendererComponent.HandlePointerDown | packages/medview-core/src/components/volume-renderer-component.ts:162-165 | Dragging starts at the pointer |
| VolumeRenderer.VolumeRendererComponent.HandlePointerMove | packages/medview-core/src/components/volume-renderer-component.ts:167-181 | While dragging, the rotation follows the drag and the pointer is remembered; otherwise nothing changes |
| VolumeRenderer.VolumeRendererComponent.HandlePointerUp | packages/medview-core/src/components/volume-renderer-component.ts:183-186 | Dragging stops and the pointer is forgotten |
| VolumeRenderer.VolumeRendererComponent.HandleWheelScroll | packages/medview-core/src/components/volume-renderer-component.ts:192-203 | The scale zooms within the range, the invariant is kept, and a redraw is requested |
| VolumeRenderer.VolumeRendererComponent.SetScale | packages/medview-core/src/components/volume-renderer-component.ts:152-155 | The scale is set and a redraw is requested |
| VolumeRenderer.VolumeRendererComponent.SetTranslateOffset | packages/medview-core/src/components/volume-renderer-component.ts:157-160 | The offset is set and a redraw is requested |
| VolumeRenderer.VolumeRendererComponent.SetRotation | packages/medview-core/src/components/volume-renderer-component.ts:147-150 | The rotation is set and a redraw is requested |
| Colortables.RoundHalfEven | packages/uikit/src/colortables.ts:223-226 | The rounded value is within 1/2 of x and exact on integers |
| Colortables.ClampedByte | packages/uikit/src/colortables.ts:223-226 | A `Uint8ClampedArray` store gives 0 for a missing value or anything at or below 0, 255 at or above 255, and the nearest integer in between |
| Colortables.ByteOf | packages/uikit/src/colortables.ts:124-127 | Integers store as themselves inside [0, 255] and clamp outside it |
| Colortables.ClampedBytes | packages/uikit/src/colortables.ts:210-211 | `Uint8ClampedArray.from` clamps each element and keeps the length |
| Colortables.Lerped | packages/uikit/src/colortables.ts:222-226 | The interpolated channel is defined iff there is a next control point and the segment is not empty, and equals the control values at both ends |
| Colortables.WriteTexelAt | packages/uikit/src/colortables.ts:223-226 | Writing a texel changes exactly its four bytes |
| Colortables.PaintedUpToAt | packages/uikit/src/colortables.ts:221-227 | After the inner loop, the texels from lo up to j are painted and every other byte is unchanged |
| Colortables.PaintSegmentAt | packages/uikit/src/colortables.ts:219-227 | Painting a segment sets exactly the texels lo..hi |
| Colortables.SegmentTexelEnds | packages/uikit/src/colortables.ts:221-226 | The interpolated texel equals the control points at both ends of the segment |
| Colortables.ZeroBelowFirst | packages/uikit/src/colortables.ts:213-228 | Bytes below the first control index stay 0 |
| Colortables.MakeLutControlPoints | packages/uikit/src/colortables.ts:215-228 | With increasing indices, the table holds each control point's clamped colour at its index |
| Colortables.GrayscaleRamp | packages/uikit/src/colortables.ts:84-92 | The grayscale fallback maps index 0 to black (0) and 255 to white (255) in every channel |
| Colortables.MakeLut | packages/uikit/src/colortables.ts:198-238 | The in-place table built by the loops equals the segment-by-segment specification |
| Colortables.FillSegment | packages/uikit/src/colortables.ts:219-227 | The inner loop paints the segment's texels in place |
| Colortables.StoreTexel | packages/uikit/src/colortables.ts:223-226 | Four clamped stores write one texel |
| Colortables.SeqMin | packages/uikit/src/colortables.ts:117 | `Math.min` returns an element that is at most every element |
| Colortables.SeqMax | packages/uikit/src/colortables.ts:118 | `Math.max` returns an element that is at least every element |
| Colortables.LastLabel | packages/uikit/src/colortables.ts:122-128 | Finds the last label with a given index, which is the one whose store survives |
| Colortables.LabelLutAfterAt | packages/uikit/src/colortables.ts:122-128 | After n labels, each texel holds the last of them written there, or 0 |
| Colortables.LabelTableAt | packages/uikit/src/colortables.ts:122-128 | The dense table holds each label's colour and alpha at its index offset |
| Colortables.LabelLutAfterIsTable | packages/uikit/src/colortables.ts:120-128 | The loop's result is the dense label table |
| Colortables.PlacedLabels | packages/uikit/src/colortables.ts:140-145 | The corrected placement has one name per dense index |
| Colortables.PlacedLabelsAt | packages/uikit/src/colortables.ts:140-145 | With corrected placement, each label's name sits at its index minus the minimum, and unlisted slots hold "?" |
| Colortables.LabelLutShape | packages/uikit/src/colortables.ts:100-150 | For the corrected label placement: the call fails exactly when the colour and index lists differ in length or are empty; otherwise min and max are the extreme indices, the table has 4 bytes per dense index, and labels are kept exactly when there is one per entry or one per dense index |
| Colortables.LabelLutParts | packages/uikit/src/colortables.ts:117-134 | A successful result is the dense table with its minimum and maximum |
| Colortables.LabelAlphaAt | packages/uikit/src/colortables.ts:111-115 | Alpha is the clamped given alpha; without one, it is 0 for label 0 and the fill for the rest |
| Colortables.LabelLutEntry | packages/uikit/src/colortables.ts:122-128 | Each label whose index is not reused later has its clamped R, G, B and alpha at its texel |
| Colortables.LabelLutWithoutIndices | packages/uikit/src/colortables.ts:104-128 | Without indices, the range is 0..n-1 and label i is at texel i |
| Colortables.LabelLutUnlisted | packages/uikit/src/colortables.ts:120-128 | Texels that no label names stay 0 |
| Colortables.PlacedLabelsAsWritten | packages/uikit/src/colortables.ts:141-145 | The as-written placement writes at the raw index and can grow the array past the dense size |
| Colortables.LabelPlacementOffByMin | packages/uikit/src/colortables.ts:136-147 | For indices [5, 7] with labels "a" and "b", `makeLabelLut` as written returns labels eight long ("?" at 0-2, holes at 3, 4 and 6, "a" at 5, "b" at 7); the corrected placement gives "a", "?", "b" |
| Colortables.PlacedFromZero | packages/uikit/src/colortables.ts:140-145 | When the least index is 0, the placement as written equals the corrected one |
| Colortables.LabelLutAsWrittenFromZero | packages/uikit/src/colortables.ts:100-150 | For every colormap whose least index is 0 (every colormap without `I` among them), `makeLabelLut` as written and as corrected give the same result |
| Colortables.LabelLutAsWrittenTooLong | packages/uikit/src/colortables.ts:136-147 | As written, with a least index above 0 and one label per colour, the labels come out longer than the table |
| Colortables.MakeLabelLut | packages/uikit/src/colortables.ts:100-150 | The method computes the label-table specification, with the corrected label placement |
| Colortables.FillLabelLut | packages/uikit/src/colortables.ts:120-128 | The fill loop yields the dense label table |
| Colortables.ChooseLabels | packages/uikit/src/colortables.ts:136-147 | Labels are kept when dense, placed (corrected placement) when there is one per label, and dropped otherwise |
| Colortables.PlaceLabels | packages/uikit/src/colortables.ts:141-145 | The placement loop yields the corrected placement |
| Colortables.DecimalString | packages/uikit/src/colortables.ts:180 | `toString` yields non-empty decimal digits with no leading zero |
| Colortables.DecimalRoundTrip | packages/uikit/src/colortables.ts:178-182 | Reading the decimal string back gives the number |
| Colortables.PaddedLabels | packages/uikit/src/colortables.ts:175-182 | Labels are kept and padded up to 256 with their own indices as names |
| Colortables.PadLabels | packages/uikit/src/colortables.ts:178-182 | The padding loop yields the padded labels |
| Colortables.DrawBytes | packages/uikit/src/colortables.ts:184-190 | The draw table copies the label table's first 1024 bytes over a background that is 255 everywhere except a transparent byte 3 |
| Colortables.CopyDrawBytes | packages/uikit/src/colortables.ts:184-190 | The copy loop yields the draw table |
| Colortables.DrawFallbackAsWrittenThrows | packages/uikit/src/colortables.ts:161-173 | As written, `makeDrawLut` throws the length error for every unregistered name, because the fallback has 7 colours and 2 indices; with the corrected fallback it yields a table |
| Colortables.PaddedHoleless | packages/uikit/src/colortables.ts:175-182 | Padding labels that have no holes gives the padded labels without holes |
| Colortables.DrawLutAsWrittenAgrees | packages/uikit/src/colortables.ts:158-196 | For a registered name or a given colormap whose least index is 0, `makeDrawLut` as written and as corrected agree |
| Colortables.MakeDrawLutSpec | packages/uikit/src/colortables.ts:158-196 | With the corrected fallback and label placement: the draw table fails iff the label table fails; otherwise it holds the draw bytes and at least 256 padded labels |
| Colortables.DrawLutUnknownName | packages/uikit/src/colortables.ts:158-196 | With the corrected fallback, an unknown name succeeds: entry k < 7 holds the k-th fallback colour, every byte from entry 7 on is 255, and the 256 labels are the indices |
| Colortables.LookupIsStoredOrGrayscale | packages/uikit/src/colortables.ts:72-93 | Lookup yields a stored colormap or the grayscale default, and the default only when neither the name nor its lower case is stored |
| Colortables.AddedColormapFound | packages/uikit/src/colortables.ts:57-74 | A colormap just added is found under its key |
| Colortables.AddedColormapFoundAnyCase | packages/uikit/src/colortables.ts:72-77 | It is also found under any name whose lower case is the key, unless that name holds another colormap |
| Colortables.ColorTables.constructor | packages/uikit/src/colortables.ts:22-31 | The registry starts empty |
| Colortables.ColorTables.AddColormap | packages/uikit/src/colortables.ts:57-59 | The colormap is stored under the key, a new key is listed last, and the colormap is found again |
| Colortables.ColorTables.Colormaps | packages/uikit/src/colortables.ts:64-66 | Lists exactly the stored keys, without repeats |
| Colortables.ColorTables.Colormap | packages/uikit/src/colortables.ts:95-98 | The table is `makeLut` of the looked-up colormap |
| Colortables.ColorTables.MakeDrawLut | packages/uikit/src/colortables.ts:158-196 | The method computes the draw-table specification, with the corrected fallback and label placement |

## Left out

- The quad tree's internal subdivision is not part of this model (`quadtree.ts`). The tree is a
  sequence of elements, and queries are exact filters over it in insertion order.
- The animation manager's frame stepping and easing are not part of this model
  (`animationmanager.ts`). The model records which animations are started and removed.
- Rendering is left out, because it is canvas and WebGL output. That covers `draw`,
  `drawVolume`, font metrics, `updateOrthoProjectionMatrix`, `handleResize` and the
  `cuboidShader` setter. So are DOM wiring, `convertTouchTo*`, file drops, logging, and
  `toJSON`/`fromJSON`.
- `getCanvasRelativePosition` reads the canvas rectangle and `performance.now()`. Both are
  parameters here (`rectOrigin`, `now`).
- The pinch/rotate maths (`detectPinchOrRotate`) is left out because it uses floating-point
  `sqrt` and `atan2`. Detection is recorded as one `PinchOrRotate` gesture. The zoom, rotate
  and pan hooks only log.
- `handleWheel` queries at the client point scaled by the pixel ratio. It does not subtract the
  canvas rectangle the way the pointer handlers do (uikit.ts:199 against uikit.ts:504-505).
  `Kit.WheelPointAgreement` states when the two agree. Whether this is intended cannot be told
  from the code, so the model keeps it as written.
- NaN and Infinity are not modelled; reals are exact. The following contracts therefore
  exclude the inputs that produce them:
  - `Slider.RelativePosition`, `Slider.DraggedValue` and
    `Slider.SliderComponent.UpdateValueFromPointer` require `RatioDefined`, which rules out
    0/0.
  - `BaseComponent.BaseUIComponent.FitBounds` requires positive width and height.
  - `VolumeRenderer.VolumeRendererComponent.constructor` requires a non-zero extent.
- `Containers.BaseContainerComponent.AddComponent` requires a child with non-zero size, not
  already present and not the container itself. Adding a component twice, or a container to
  itself, relies on JavaScript reference semantics that the layout proof does not follow.
- The recursion into nested containers (the `instanceof` branches in the `quadTree` setter and
  in `addComponent`) is not modelled. The nested container is treated as a plain child.
- `scaleToFitBounds` is not modelled. The text box's font metrics are a parameter
  (`measure`) of the input box's editing methods.
- `loadColormaps`, `makeLabelLutFromUrl` and `fetch` are left out; they are module loading and
  I/O.
- The gamma branch of `makeLut` uses `Math.pow` on floating point. The model keeps the default
  gamma of 1.0. `isInvert` is accepted and unused, as in the source.
- Colormap entries are integers in the model; fractional colour or index values in a colormap
  are not modelled. Interpolated values are stored with round-half-to-even, as
  `Uint8ClampedArray` does.
- `Object.keys` order for integer-like keys is not modelled (insertion order is used), and
  neither is `__proto__` as a key, nor a colormap name such as `toString` or `constructor`
  that `this.cluts[name]` finds on `Object.prototype`. `toLowerCase` and `toUpperCase` are
  ASCII only.
- The `R`/`G`/`B === undefined` checks of `makeLabelLut` cannot fail on the typed `ColorMap`
  here.
- `makeDrawLut` pushes the padding labels into the input colormap's own `labels` array when
  that array is dense. The model returns fresh labels and does not capture that aliasing.
- `Collections.Dedup` models the `Set` of hits by keeping first occurrences in order.
- `Log.warn` output is left out.
- Kit.UIKit.Press: dispatches to the hits that were visible when the press began. The source
  re-reads `isVisible` before each hit (uikit.ts:364, 377), so a handler that hides or shows a
  later hit changes what the program dispatches; the model does not capture that.
- Kit.UIKit.ProcessPointerMove: likewise dispatches over the hits visible at the start, while
  the source re-reads `isVisible` inside the loop (uikit.ts:335).
- Kit.UIKit.Press: a pointer-down or pointer-up logs one `Effects` entry and one `Handled`
  entry per hit. In the source both end in the application's handler: `applyEventEffects`
  calls `onPointerUp` or `onPointerDown` (base-ui-component.ts:281-288), and the base
  `handlePointerUp` or `handlePointerDown` calls it again (base-ui-component.ts:36-42), so it
  runs twice per hit. The log records the two dispatches, not that each reaches the same
  handler.
- Kit.UIKit.ProcessPointerMove: the same holds for pointer-enter and pointer-leave.
  `applyEventEffects` calls `onPointerEnter` or `onPointerLeave` (base-ui-component.ts:290-298)
  and the base `handlePointerEnter` or `handlePointerLeave` calls it again
  (base-ui-component.ts:44-50), both from uikit.ts:339-341 and 351-353. The log records the
  `Effects` and `Handled` dispatches, not that the handler runs twice. Pointer-move has no
  `applyEventEffects` call, so `onPointerMove` runs once.
- BaseComponent.BaseUIComponent.ApplyEffect and BaseComponent.BaseUIComponent.ApplyEventEffects:
  effects write to the component's property bag `props`, which is kept apart from the fields
  `isVisible`, `position`, `scale`, `bounds` and `tags`. In the source the target is the
  component itself, and `setObjectProperty` writes `obj[property]` (uiutils.ts:1-14). So a
  `setValue` on `isVisible` would change what the kit's visibility filter reads
  (uikit.ts:202, 364), and an animation of `scale` or `position` would resize or move the
  component. The model does not capture an effect reaching those fields. The constructor's
  `initial` bag is a parameter and is not tied to them, and `Button.ButtonObject` does not
  list `scale` and `position`. The button's two bounce animations are recorded as started on
  the bag, with their property names, and are never stepped (animation stepping is left out).
- Containers.BaseContainerComponent.UpdateLayout, Containers.BaseContainerComponent.PlaceChild
  and Containers.BaseContainerComponent.AddComponent: every child uses the base `getBounds` and
  `fitBounds`. Children that extend the text box (the button and the input box) override both:
  `getBounds` runs `updateBounds`, which calls `setBounds` (text-box-component.ts:52-70), and
  `fitBounds` runs `updateBounds` after the fit (text-box-component.ts:47-50). For those
  children the layout's `getBounds()[2]`/`[3]` (base-container-component.ts:96, 102) runs their
  resize listeners once more per step, and `addComponent` leaves them at their measured size
  rather than the fitted one. The "exactly once" and "fitted" statements hold for base-class
  children only; the measured size depends on font metrics, which are not part of this model.
- InputTextBox.Insert, InputTextBox.Backspace, InputTextBox.Delete, InputTextBox.ArrowLeft and
  InputTextBox.ArrowRight: the model's strings are sequences of characters and the cursor counts
  characters. JavaScript's `length`, `substring` and `cursorPosition` count UTF-16 code units
  (input-text-box-component.ts:77-125). For a character outside the Basic Multilingual Plane,
  typing it moves the source's cursor by 2, and one backspace or delete removes half of its
  surrogate pair. The model does not capture that.
- Toggle.ToggleComponent.constructor and Slider.SliderComponent.constructor require a position,
  mirroring the source's non-null assertion `config.position!`.
- Slider.SliderComponent.HandlePointerMove requires `RatioDefined` while dragging, which rules
  out 0/0 like the slider functions above.
- Button.ButtonObject lists the button's own data properties; the text-box fields it inherits
  (`textColor` and the others) are not in its property bag, since no button effect names them.
- Colortables.LabelLutShape, Colortables.MakeLabelLut and Colortables.ChooseLabels: state the
  corrected label placement (at `idx - mnIdx`). The placement as written is
  `Colortables.MakeLabelLutSpecAsWritten`; the two agree when the least index is 0
  (`Colortables.LabelLutAsWrittenFromZero`) and differ otherwise (see "Findings").
- Colortables.MakeDrawLutSpec and Colortables.ColorTables.MakeDrawLut: state the corrected
  fallback colormap and label placement. As written (`Colortables.MakeDrawLutSpecAsWritten`)
  every unregistered name throws; the two agree for other sources whose least index is 0
  (`Colortables.DrawLutAsWrittenAgrees`).

## Findings

| source | as written | input that shows it | evidently intended | confidence | as-written member | corrected member |
|---|---|---|---|---|---|---|
| packages/uikit/src/colortables.ts:140-145 | The labels are placed at `labels[idx]`, the raw index | indices [5, 7] with labels ["a", "b"]: the dense array ["?", "?", "?"] grows to eight entries, "a" at 5 and "b" at 7 with holes at 3, 4 and 6, and its own entries stay "?" | Place the labels at `idx - mnIdx`, giving ["a", "?", "b"] | not executed | Colortables.LabelPlacementOffByMin | Colortables.PlacedLabelsAt |
| packages/uikit/src/colortables.ts:161-173 | The fallback colormap of `makeDrawLut` has 7 colours but only 2 indices | any name that is not registered: `makeLabelLut` throws on the length check | One index per colour (the default 0..6), so an unknown name yields a usable draw table | not executed | Colortables.DrawFallbackAsWrittenThrows | Colortables.DrawLutUnknownName |
