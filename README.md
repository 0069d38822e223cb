# Screenshot utility: layers, undo history and selection frame

This project is a Dafny model of the core of a screenshot editor written in
Python with Qt. The editor captures the screen and shows a red frame around
the part to keep. The user drags and resizes that frame, then annotates the
capture on a stack of layers. The model covers five parts:

- the compositor's layer bookkeeping (`ImageProcessor`): the layer list, the
  active-layer index, the scratch ("fake") layer, the composite of all
  layers, the current tool and how drawable elements are sent to tools;
- the layer record (`Layer`);
- the undo/redo history (`Caretaker`) and its snapshots (`Memento`);
- the selection frame (`DraggableBox`): its zones, its drag and resize
  geometry, and its mouse state machine;
- the small vector class used for geometry (`Vector`).

Modules, one per file:

| file | module | models |
|---|---|---|
| `wrappers.dfy` | `Wrappers` | `Option` and `Result` |
| `ints.dfy` | `Ints` | Python's `min` on integers |
| `images.dfy` | `Images` | numpy image arrays: shape plus 8-bit samples |
| `layer.dfy` | `Layers` | `src/Layer.py` |
| `image_processor.dfy` | `ImageProcessing` | `src/ImageProcessor.py`, `src/DrawableElement.py` |
| `caretaker.dfy` | `Caretakers` | `src/Caretaker.py` |
| `memento.dfy` | `Mementos` | `src/Memento.py` |
| `draggable_box.dfy` | `DraggableBoxes` | `src/DraggableBox.py` |
| `vector.dfy` | `Vectors` | `src/utils/Vector.py` |

Some code mutates objects in place: the processor's layer list, a layer's
visibility, the caretaker's dictionaries, the frame's state and a vector's
components. That code is modelled as Dafny classes. Their methods change
only the fields named in their `modifies` clauses, and their contracts give
the new value of each field they change. The pure computations are
functions: zones, inset and outset, vector arithmetic, and the composite of
a stack of layers. The loops of the source are `while` loops with
invariants. These are the loop of `render_layers` and the keyword loop of
`Memento.__init__`. `resize_box` and the list updates of `save` are
straight-line updates of local variables, and they are methods that make
the same updates in the same order.

Default arguments of the source are Dafny parameter defaults:
`Layer(image=None, visible=True)`, `add_layer(image=None)` and the memento's
`_source=None`.

Inputs from outside the program are parameters of the model:

- the pixel blend `overlay_images` is a function `overlay(bottom, top)`;
- the configured tool names are a set;
- the maximum history length from the configuration is a number;
- the monitor size and the border widths are numbers;
- the clock is a `now` value.

Points where the model follows the code rather than the design:

- `render_layers` does not consult `visible`: it blends every layer.
  Blending on top of a layer with no final image raises a `TypeError`, and
  the loop stops. The model returns that case as `raised` and keeps the
  partial composite.
- `ImageProcessor` reads `layer.final_image`, and `src/Layer.py` does not
  define that attribute. Each modelled layer carries one, initialised to the
  layer's image.
- `ImageProcessor` builds the base layer as `Layer(self, image)` and imports
  a `FakeLayer` class. Neither matches `src/Layer.py`. The model builds both
  layers as `Layer(image, visible = true)`.
- `redo` after the last entry and `undo` at index 0 return None and change
  nothing. An undo can never reach index -1 while the history is not empty.
- `__mul__` with a non-number returns None. It does not raise.
- Projection tests for the zero vector before it checks the lengths. The
  length check comes from `dot`.

## Model

| member | source | states |
|---|---|---|
| Images.WithOpaqueAlpha | src/ImageProcessor.py:141-143 | the widened image has the same height and width and one more channel; each pixel keeps its old samples as a prefix and gains a last sample of 255; all samples stay 8-bit |
| Images.Zeros | src/ImageProcessor.py:148 | an all-zero, valid 8-bit image of the requested shape |
| Layers.Layer.constructor | src/Layer.py:3-6 | the image and visibility are stored as given, by default None and true; drawing is disabled; the final image starts as the image |
| Layers.Layer.ToggleVisibility | src/Layer.py:8-9 | the visibility flips and no other field changes |
| Layers.ToggleTwice | src/Layer.py:8-9 | toggling twice leaves the layer exactly as it was |
| ImageProcessing.Values | src/ImageProcessor.py:180-184 | definition: the images of a stack whose layers all have final images, in order |
| ImageProcessing.RenderAllPresent | src/ImageProcessor.py:179-184 | when every layer has a final image, the composite is the bottom image with each higher one blended on top, bottom to top |
| ImageProcessing.RenderNothing | src/ImageProcessor.py:179-183 | the composite stays None exactly when no layer has a final image |
| ImageProcessing.RenderRaises | src/ImageProcessor.py:181-184 | blending raises exactly when a layer without a final image lies above one with a final image |
| ImageProcessing.RenderSnoc | src/ImageProcessor.py:180-184 | definition unfolded: one more layer on top is one more step of the blending loop |
| ImageProcessing.RaisedIsFinal | src/ImageProcessor.py:184 | once blending has raised, later layers change nothing |
| ImageProcessing.BaseImage | src/ImageProcessor.py:139-143 | a 3-channel capture gains an opaque alpha channel with its colour samples kept; any other capture is kept unchanged |
| ImageProcessing.ImageProcessor.constructor | src/ImageProcessor.py:29-44 | no layers, no scratch layer, active index 0, no composite, no tool |
| ImageProcessing.ImageProcessor.FinalImages | src/ImageProcessor.py:180-182 | the final image of every layer, bottom first |
| ImageProcessing.FinalImagesOf | src/ImageProcessor.py:180-182 | the final image of every layer of a list, bottom first |
| ImageProcessing.ImageProcessor.SetTool | src/ImageProcessor.py:87-98 | the previous tool, if any, is disabled before the new tool becomes current and shows its settings; the mouse is marked released |
| ImageProcessing.ImageProcessor.OnNewImage | src/ImageProcessor.py:134-151 | exactly one new visible base layer holding the widened capture; it is active; a fresh, visible, all-zero 4-channel scratch layer of the same size; both layers' final images are their images and neither has drawing enabled; the composite is the widened capture |
| ImageProcessing.ImageProcessor.AddLayer | src/ImageProcessor.py:157-160 | the old layers are kept and one fresh visible layer goes on top, holding the given image (by default none) as its image and final image, with drawing disabled; it becomes active |
| ImageProcessing.ImageProcessor.RemoveLayer | src/ImageProcessor.py:162-165 | an index in range removes exactly that layer and clamps the active index to the new top; any other index changes nothing; the active index stays in range |
| ImageProcessing.ImageProcessor.SetActiveLayer | src/ImageProcessor.py:167-169 | an index in range becomes active; any other index changes nothing |
| ImageProcessing.ImageProcessor.ToggleLayerVisibility | src/ImageProcessor.py:171-173 | only the chosen layer's visibility flips; every other layer and field is unchanged; an index out of range changes nothing |
| ImageProcessing.ImageProcessor.RenderLayers | src/ImageProcessor.py:175-186 | the composite is the left-to-right blend of the layers' final images, as characterised by the Render lemmas; `raised` holds exactly when blending hit a missing image |
| ImageProcessing.ImageProcessor.RenderElement | src/ImageProcessor.py:226-232 | an element is skipped exactly when it already has an image and no redraw is asked; otherwise it goes to the tool registered under its name, or fails with the KeyError when no such tool exists |
| Caretakers.Fresh | src/Caretaker.py:18-21 | the history of a new id is empty with index -1 |
| Caretakers.Saved | src/Caretaker.py:22-32 | after a save the history stays within its maximum and the index names the last entry |
| Caretakers.SaveEntries | src/Caretaker.py:22-30 | truncating, appending and evicting step by step gives exactly the entries of the saved history |
| Caretakers.SaveKeepsPrefix | src/Caretaker.py:22-32 | a save keeps min(index + 2, maximum) entries: the new memento last, after the newest entries up to the old index; undone entries are dropped; nothing is kept when the maximum is 0 or negative |
| Caretakers.UndoThenRedo | src/Caretaker.py:44-48 | an undo followed by a redo restores the history |
| Caretakers.RedoThenUndo | src/Caretaker.py:60-64 | a redo followed by an undo restores the history |
| Caretakers.UndoAfterSave | src/Caretaker.py:22-48 | after a save nothing can be redone; with room for two entries, an undo returns the memento that was current before the save |
| Caretakers.Caretaker.Lookup | src/Caretaker.py:6-8 | an id has a history exactly when it was saved under, and that history is well formed |
| Caretakers.Caretaker.constructor | src/Caretaker.py:5-8 | all three dictionaries start empty; the configured maximum may be any integer |
| Caretakers.Caretaker.Save | src/Caretaker.py:10-32 | the id's history becomes the saved history, starting from a fresh one for a new id; every other id's history is unchanged |
| Caretakers.Caretaker.Undo | src/Caretaker.py:34-48 | with an earlier entry, the index moves back one and that entry is returned; otherwise None and nothing changes; other ids are unchanged |
| Caretakers.Caretaker.Redo | src/Caretaker.py:50-64 | with a later entry, the index moves forward one and that entry is returned; otherwise None and nothing changes; other ids are unchanged |
| Caretakers.UndoRedoRoundTrip | src/Caretaker.py:34-64 | a successful undo followed by a redo returns the memento that was current and leaves every history as it was |
| Mementos.NewMemento | src/Memento.py:7-17 | construction fails exactly when some keyword starts with `_`, naming the first such keyword; otherwise the attributes are exactly the keywords with their values, and the clock value and source (by default None) are stored |
| Mementos.AttributesNotReserved | src/Memento.py:9-17 | stored attributes can never collide with `_source` or `_timestamp_created` |
| Mementos.IsRelated | src/Memento.py:19-29 | no two base mementos are related |
| DraggableBoxes.GetZone | src/DraggableBox.py:115-138 | a left-side zone exactly when the point is in the left band; a right-side zone exactly in the right band but not the left; top and bottom likewise; the centre exactly when no band holds the point |
| DraggableBoxes.Outset | src/DraggableBox.py:46-49 | the frame lies `border` outside the selection on every side |
| DraggableBoxes.Inset | src/DraggableBox.py:97-101 | outsetting the inset selection gives back the frame |
| DraggableBoxes.InsetOfOutset | src/DraggableBox.py:109-113 | insetting the outset frame gives back the selection |
| DraggableBoxes.ResizeGeometry | src/DraggableBox.py:153-181 | the dragged edges follow the cursor unless the frame would become smaller than 1 + 2·border; in that case the dragged edge stops at that distance and the opposite edge never moves; extents no zone names keep their size |
| DraggableBoxes.ResizedSelectionNotEmpty | src/DraggableBox.py:158-181 | after a resize, the selection is at least one pixel wide in every direction the zone resizes |
| DraggableBoxes.MapToParent | src/DraggableBox.py:76 | definition: a local point is shifted by the frame's top-left corner |
| DraggableBoxes.DraggableBox.constructor | src/DraggableBox.py:26-53 | the given selection, or a 100×100 box centred on the monitor; the frame surrounds the selection; nothing is dragged or resized |
| DraggableBoxes.DraggableBox.MousePress | src/DraggableBox.py:55-69 | a left press in the centre starts a drag from that point; a left press elsewhere starts a resize of the zone it hit; other buttons change nothing |
| DraggableBoxes.DraggableBox.MouseMove | src/DraggableBox.py:71-83 | a drag moves the frame by the cursor's travel without resizing it; a resize resizes it; otherwise only the hovered zone is reported; the selection stays inside the frame |
| DraggableBoxes.DraggableBox.MouseRelease | src/DraggableBox.py:85-90 | a left release clears the drag, the offset, the resize and the zone; other buttons change nothing |
| DraggableBoxes.DraggableBox.UpdateSelection | src/DraggableBox.py:92-103 | the selection becomes the frame inset by `border` |
| DraggableBoxes.DraggableBox.OnChangeSelection | src/DraggableBox.py:105-113 | the selection is stored and the frame is placed `border` outside it |
| DraggableBoxes.DraggableBox.ResizeBox | src/DraggableBox.py:153-182 | the frame is resized as ResizeGeometry states, with the cursor mapped to the parent; the selection follows |
| DraggableBoxes.ChangeThenUpdate | src/DraggableBox.py:97-113 | a selection set from outside is what the frame reports back |
| Vectors.Plus | src/utils/Vector.py:43 | componentwise sum |
| Vectors.Minus | src/utils/Vector.py:51 | componentwise difference |
| Vectors.Scaled | src/utils/Vector.py:74 | every component times the constant |
| Vectors.Add | src/utils/Vector.py:37-43 | a non-vector raises ValueError; so does a length mismatch; otherwise the componentwise sum of the same length |
| Vectors.Subtract | src/utils/Vector.py:45-51 | the same errors as addition; otherwise the componentwise difference |
| Vectors.Scale | src/utils/Vector.py:70-74 | a non-number raises ValueError; otherwise every component is multiplied |
| Vectors.Multiply | src/utils/Vector.py:53-56 | a number gives the scaled vector; anything else gives None |
| Vectors.MultiplyRight | src/utils/Vector.py:58-60 | `k * v` equals `v * k`, component by component |
| Vectors.Divide | src/utils/Vector.py:62-68 | a non-number raises ValueError; zero raises ZeroDivisionError; otherwise every component is divided |
| Vectors.Dot | src/utils/Vector.py:76-82 | a non-vector or a length mismatch raises ValueError; otherwise the sum of the componentwise products |
| Vectors.Equals | src/utils/Vector.py:22-25 | equal exactly when the other value is a vector with the same components |
| Vectors.Projection | src/utils/Vector.py:84-92 | a non-vector or a zero squared magnitude raises ValueError; otherwise a length mismatch raises the ValueError of `dot`, and equal lengths give (a·b / b·b) times each component of b |
| Vectors.NormalizeIndex | src/utils/Vector.py:13-17 | Python list indexing: a key is valid exactly between -n and n-1, and a negative key counts from the end |
| Vectors.Vector.constructor | src/utils/Vector.py:6-8 | the components are the given values |
| Vectors.Vector.AsOperand | src/utils/Vector.py:23-24 | definition: a vector on the right of an operator passes its current components |
| Vectors.Vector.Get | src/utils/Vector.py:16-17 | a valid key gives that component, counting from the end for a negative key; any other key raises IndexError |
| Vectors.Vector.Append | src/utils/Vector.py:27-28 | the value is added as the new last component |
| Vectors.Vector.SetItem | src/utils/Vector.py:13-14 | a valid key sets exactly that component and no other; any other key raises IndexError and changes nothing |
| Vectors.AddThenSubtract | src/utils/Vector.py:37-51 | (a + b) - b == a |
| Vectors.AddCommutes | src/utils/Vector.py:37-43 | a + b == b + a |
| Vectors.DotSymmetric | src/utils/Vector.py:76-82 | a·b == b·a |
| Vectors.ProjectionOntoZeroVector | src/utils/Vector.py:88-90 | projecting onto an all-zero vector raises ValueError |
| Vectors.InnerProductOfDifference | src/utils/Vector.py:45-82 | (a - c)·b == a·b - c·b |
| Vectors.InnerProductOfScaled | src/utils/Vector.py:70-82 | (k·b)·d == k·(b·d) |
| Vectors.ProjectionResidualOrthogonal | src/utils/Vector.py:84-92 | a minus its projection onto b is orthogonal to b |
| Vectors.ScaleThenDivide | src/utils/Vector.py:62-74 | scaling by a non-zero k and then dividing by k gives back the vector |

## Left out

- `overlay_images` and `overlay_element_on_image` compute alpha blending in floating point, truncate to `uint8` and call OpenCV's `warpAffine`. The blend is an uninterpreted parameter, and `overlay_element_on_image` is not modelled.
- `load_tools_from_config` loads tool classes with `importlib`. The model takes the set of loaded tool names as a constructor parameter; tool ordering and settings widgets are left out.
- `initUI` and the `update_transformed_image` call at the end of `render_layers` only hand images to Qt widgets. They are not modelled.
- `update_zoomable_label` (src/ImageProcessor.py:59-69) blends the scratch layer's final image over the composite when the scratch layer is visible, then displays the result. This scratch-layer blend and the display are not modelled.
- `render_layer`, `add_element`, `apply_element_transformation` and `get_touch_element` call layer members (`elements`, `add_element`, `rerender_after_element_update`, `get_touched_element`) that `src/Layer.py` does not define. They are not modelled.
- `on_mouse_move`, `on_mouse_down` and `on_mouse_up` only forward to the current tool's handlers. The tools in `src/ImageProcessingTools/` are stubs and are not part of this model.
- ImageProcessing.ImageProcessor.RenderElement: the element is given to its tool with `draw_drawable_element`, and what a tool draws is not modelled.
- ImageProcessing.ImageProcessor.SetTool: tool objects are represented by their names. `disable` and `create_settings_ui` are recorded as events rather than performed.
- ImageProcessing.ImageProcessor.OnNewImage: the deep copies of the captured image are values in Dafny, so aliasing between the capture and the layers is not modelled.
- In the draggable box, `mapToParent`, `move` and `setGeometry` are arithmetic on the frame geometry. Qt's minimum and maximum widget sizes are not applied.
- `update_cursor` (src/DraggableBox.py:140-151) sets a cursor shape. The model reports the hovered zone instead.
- The `signal_selection_change` emission is not modelled.
- `RotatableBox` is float trigonometry plus painting, and its transformation methods are empty. It is not part of this model.
- `Vector.magnitude` and `Vector.angle` use `sqrt` and `acos` and are not modelled.
- `Vector.cross` always fails, because it passes an `immutable=` keyword that `__init__` does not accept. It is not modelled.
- `__repr__`, `__len__` and `to_list` are trivial accessors of `v`.
- Vectors.Projection: the squared magnitude is the exact sum of squares. The float rounding of `sqrt(...) ** 2` is not modelled.
- Vector arithmetic in general is exact real arithmetic, so no float rounding is modelled.
- Vectors.ProjectionOntoZeroVector: proves that an all-zero vector raises. It does not prove the converse, that a vector with a non-zero component has a non-zero squared magnitude.
- Mementos.NewMemento: `time.time()` is the parameter `now`. On the failure path the partly built object is discarded, as the raised exception discards it.
- Mementos.NewMemento: requires distinct keyword names, which Python guarantees for `**kwargs`.
- Mementos.IsRelated: a keyword named `is_related` becomes an instance attribute through `setattr` (src/Memento.py:12) and hides the method on that memento. The model keeps attributes in a map apart from the methods, so this shadowing is not modelled.
- Vectors.Vector.Get and Vectors.Vector.SetItem take integer keys only. The slice keys that `__getitem__` and `__setitem__` also accept (src/utils/Vector.py:13-17) are not modelled.
- Caretakers.Caretaker.constructor: the maximum comes from `config['mementos']['max_num_mementos']` and is a parameter here. The module-level `caretaker` singleton is not modelled.
- `src/config.py` reads a JSON file; its values are parameters.
- `src/ImagePorcessor.py` is an obsolete copy that only prints. It is not part of this model.
- `src/utils/image_rendering.py` converts Qt and OpenCV images. It is not part of this model.
