/**
 * A layer of the compositor (src/Layer.py): an optional base image and a
 * visibility flag that the user toggles.  The compositor also reads a
 * layer's `final_image`, the cached composite of the layer; Layer.py does not
 * define that attribute, so the model gives each layer one, starting as its
 * base image (the composite of a layer that holds no elements yet).
 */
module Layers {
  import opened Wrappers
  import opened Images

  class Layer {
    var image: Option<Image>
    var visible: bool
    var drawingEnabled: bool
    var finalImage: Option<Image>

    /** `Layer(image=None, visible=True)` (Layer.py:3-6). */
    constructor (image: Option<Image> := None, visible: bool := true)
      ensures this.image == image && this.visible == visible
      ensures !drawingEnabled
      ensures finalImage == image
    {
      this.image := image;
      this.visible := visible;
      this.drawingEnabled := false;
      this.finalImage := image;
    }

    /** `toggle_visibility` (Layer.py:8-9): only the flag changes. */
    method ToggleVisibility()
      modifies this`visible
      ensures visible == !old(visible)
      ensures image == old(image) && drawingEnabled == old(drawingEnabled) && finalImage == old(finalImage)
    {
      visible := !visible;
    }
  }

  /** Toggling twice gives back the original visibility and changes nothing else. */
  method ToggleTwice(layer: Layer)
    modifies layer`visible
    ensures unchanged(layer)
  {
    layer.ToggleVisibility();
    layer.ToggleVisibility();
  }
}
