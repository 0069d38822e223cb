/**
 * The layer-stack bookkeeping of the compositor (src/ImageProcessor.py): an
 * ordered list of layers with an active-layer index, the scratch ("fake")
 * layer, the composite shown to the user, the tool registry and the current
 * tool.  The pixel blend `overlay_images` works in floating point and is a
 * parameter here (`overlay(bottom, top)`), so the order in which layers are
 * blended can be stated without fixing the arithmetic of a pixel.
 */
module ImageProcessing {
  import opened Wrappers
  import opened Images
  import opened Layers
  import opened Ints

  /**
   * What `render_layers` leaves behind: nothing yet, a composite, or the
   * partial composite at the moment blending raised because a later layer
   * had no final image.
   */
  datatype Composite = NoImage | Composed(image: Image) | Raised(partial: Image)

  /** The value `self.final_image` holds for a composite. */
  function Shown(c: Composite): Option<Image> {
    match c
    case NoImage => None
    case Composed(img) => Some(img)
    case Raised(img) => Some(img)
  }

  /**
   * One iteration of the loop of `render_layers` (ImageProcessor.py:180-184):
   * while nothing is composed the layer's final image is taken as it is,
   * afterwards it is blended on top; blending onto a missing image raises.
   */
  function Step(overlay: (Image, Image) -> Image, acc: Composite, top: Option<Image>): Composite {
    match acc
    case NoImage => if top.Some? then Composed(top.value) else NoImage
    case Composed(bottom) => if top.Some? then Composed(overlay(bottom, top.value)) else Raised(bottom)
    case Raised(_) => acc
  }

  /** The composite of a stack of final images, bottom first. */
  function Render(overlay: (Image, Image) -> Image, finals: seq<Option<Image>>): Composite
    decreases |finals|
  {
    if finals == [] then NoImage
    else Step(overlay, Render(overlay, finals[..|finals| - 1]), finals[|finals| - 1])
  }

  /** `overlay(...overlay(overlay(base, tops[0]), tops[1])..., tops[n-1])`. */
  function LeftFold(overlay: (Image, Image) -> Image, base: Image, tops: seq<Image>): Image
    decreases |tops|
  {
    if tops == [] then base else overlay(LeftFold(overlay, base, tops[..|tops| - 1]), tops[|tops| - 1])
  }

  /** The images of a list of final images that are all present. */
  function Values(finals: seq<Option<Image>>): (r: seq<Image>)
    requires forall i :: 0 <= i < |finals| ==> finals[i].Some?
    ensures |r| == |finals| && forall i :: 0 <= i < |finals| ==> Some(r[i]) == finals[i]
  {
    seq(|finals|, i requires 0 <= i < |finals| => finals[i].value)
  }

  /**
   * When every layer has a final image, the composite is the left fold of the
   * blend starting from the bottom layer's final image unchanged.
   */
  lemma {:induction false} RenderAllPresent(overlay: (Image, Image) -> Image, finals: seq<Option<Image>>)
    requires finals != []
    requires forall i :: 0 <= i < |finals| ==> finals[i].Some?
    ensures Render(overlay, finals) == Composed(LeftFold(overlay, finals[0].value, Values(finals[1..])))
  {
    if |finals| > 1 {
      var init := finals[..|finals| - 1];
      RenderAllPresent(overlay, init);
      assert init[0] == finals[0];
      assert Values(init[1..]) == Values(finals[1..])[..|finals| - 2];
    }
  }

  /** The composite is nothing exactly when no layer has a final image. */
  lemma {:induction false} RenderNothing(overlay: (Image, Image) -> Image, finals: seq<Option<Image>>)
    ensures Render(overlay, finals).NoImage? <==> forall i :: 0 <= i < |finals| ==> finals[i].None?
  {
    if finals != [] {
      RenderNothing(overlay, finals[..|finals| - 1]);
    }
  }

  /**
   * Blending raises exactly when some layer without a final image lies above a
   * layer with one; missing images below the first present one are skipped.
   */
  lemma {:induction false} RenderRaises(overlay: (Image, Image) -> Image, finals: seq<Option<Image>>)
    ensures Render(overlay, finals).Raised? <==>
            exists i, j :: 0 <= i < j < |finals| && finals[i].Some? && finals[j].None?
  {
    if finals != [] {
      var n := |finals| - 1;
      var init := finals[..n];
      RenderRaises(overlay, init);
      RenderNothing(overlay, init);
      if Render(overlay, finals).Raised? && !Render(overlay, init).Raised? {
        var i :| 0 <= i < n && init[i].Some?;
        assert finals[i].Some? && finals[n].None?;
      }
      if exists i, j :: 0 <= i < j < |finals| && finals[i].Some? && finals[j].None? {
        var i, j :| 0 <= i < j < |finals| && finals[i].Some? && finals[j].None?;
        if j < n {
          assert init[i].Some? && init[j].None?;
        } else {
          assert init[i].Some?;
        }
      }
    }
  }

  /** One more layer is one more step of the loop. */
  lemma RenderSnoc(overlay: (Image, Image) -> Image, finals: seq<Option<Image>>, i: nat)
    requires i < |finals|
    ensures Render(overlay, finals[..i + 1]) == Step(overlay, Render(overlay, finals[..i]), finals[i])
  {
    assert finals[..i + 1][..i] == finals[..i];
  }

  /** Once blending has raised, further layers change nothing (the loop has stopped). */
  lemma {:induction false} RaisedIsFinal(overlay: (Image, Image) -> Image, finals: seq<Option<Image>>, k: nat)
    requires k <= |finals|
    requires Render(overlay, finals[..k]).Raised?
    ensures Render(overlay, finals) == Render(overlay, finals[..k])
    decreases |finals| - k
  {
    if k < |finals| {
      assert finals[..k + 1][..k] == finals[..k];
      RaisedIsFinal(overlay, finals, k + 1);
    } else {
      assert finals[..k] == finals;
    }
  }

  /**
   * The base image `on_new_image` makes (ImageProcessor.py:139-143): a
   * 3-channel capture gains an opaque alpha channel, any other array is kept.
   */
  function BaseImage(original: Image): (r: Image)
    requires Images.Valid(original)
    ensures Images.Valid(r)
    ensures r.height == original.height && r.width == original.width
    ensures original.channels == 3 ==>
              r.channels == 4 &&
              forall row, col :: 0 <= row < r.height && 0 <= col < r.width ==>
                r.pixels[row][col][..3] == original.pixels[row][col] && r.pixels[row][col][3] == 255
    ensures original.channels != 3 ==> r == original
  {
    if original.channels == 3 then WithOpaqueAlpha(original) else original
  }

  /** A drawable annotation (src/DrawableElement.py); its drawing instructions are not modelled. */
  datatype DrawableElement = DrawableElement(
    id: Option<int>,
    tool: Option<string>,
    zIndex: Option<int>,
    image: Option<Image>)

  /** What `render_element` does with an element. */
  datatype ElementRender =
    | Skipped            // already drawn and no redraw asked for
    | Draw(tool: string) // handed to the registered tool of that name
    | UnknownTool        // `self.tool_classes[tool_name]` raises KeyError

  /** What the processor tells the tools, in order. */
  datatype ToolEvent = Disabled(tool: string) | SettingsShown(tool: string)

  /** The layers are distinct objects, so changing one changes no other. */
  ghost predicate Distinct(layers: seq<Layer>) {
    forall i, j :: 0 <= i < j < |layers| ==> layers[i] != layers[j]
  }

  /**
   * The active index names a layer whenever there is one; with no layers it
   * is 0 (as initialised) or -1 (after the last layer was removed).
   */
  predicate ActiveInRange(count: nat, active: int) {
    if count == 0 then active == 0 || active == -1 else 0 <= active < count
  }

  class ImageProcessor {
    /** The names of the tools loaded from the configuration. */
    const toolNames: set<string>
    var layers: seq<Layer>
    var fakeLayer: Layer?
    var activeLayerIndex: int
    var finalImage: Option<Image>
    var currentTool: Option<string>
    var toolEvents: seq<ToolEvent>
    /** `zoomable_label.mouse_pressed`, reset when the tool changes. */
    var mousePressed: bool

    ghost predicate Valid()
      reads this
    {
      && ActiveInRange(|layers|, activeLayerIndex)
      && Distinct(layers)
      && (fakeLayer != null ==> fakeLayer !in layers)
    }

    /** `ImageProcessor.__init__` (ImageProcessor.py:29-44), with the tools given by name. */
    constructor (toolNames: set<string>)
      ensures Valid()
      ensures this.toolNames == toolNames
      ensures layers == [] && fakeLayer == null && activeLayerIndex == 0 && finalImage == None
      ensures currentTool == None && toolEvents == [] && !mousePressed
    {
      this.toolNames := toolNames;
      layers := [];
      fakeLayer := null;
      activeLayerIndex := 0;
      finalImage := None;
      currentTool := None;
      toolEvents := [];
      mousePressed := false;
    }

    /** The final image of every layer, bottom first. */
    function FinalImages(): (r: seq<Option<Image>>)
      reads this`layers, layers
      ensures |r| == |layers| && forall i :: 0 <= i < |layers| ==> r[i] == layers[i].finalImage
    {
      FinalImagesOf(layers)
    }

    /**
     * `set_tool` (ImageProcessor.py:87-98): the previous tool is disabled
     * before the new one becomes current and shows its settings.
     */
    method SetTool(tool: string)
      modifies this`currentTool, this`toolEvents, this`mousePressed
      ensures currentTool == Some(tool)
      ensures toolEvents == old(toolEvents) +
                (if old(currentTool).Some? then [Disabled(old(currentTool).value)] else []) +
                [SettingsShown(tool)]
      ensures !mousePressed
    {
      if currentTool.Some? {
        toolEvents := toolEvents + [Disabled(currentTool.value)];
      }
      currentTool := Some(tool);
      toolEvents := toolEvents + [SettingsShown(tool)];
      mousePressed := false;
    }

    /**
     * `on_new_image` (ImageProcessor.py:134-151): one base layer made from
     * the captured image, a transparent scratch layer of the same size, and
     * the base image as the composite.
     */
    method OnNewImage(original: Image)
      requires Valid()
      requires Images.Valid(original)
      modifies this`layers, this`activeLayerIndex, this`fakeLayer, this`finalImage
      ensures Valid()
      ensures |layers| == 1 && fresh(layers[0]) && activeLayerIndex == 0
      ensures layers[0].image == Some(BaseImage(original)) && layers[0].visible
      ensures layers[0].finalImage == Some(BaseImage(original)) && !layers[0].drawingEnabled
      ensures fakeLayer != null && fresh(fakeLayer)
      ensures fakeLayer.image == Some(Zeros(original.height, original.width, 4))
      ensures fakeLayer.finalImage == fakeLayer.image && fakeLayer.visible && !fakeLayer.drawingEnabled
      ensures finalImage == Some(BaseImage(original))
    {
      layers := [];
      var image := BaseImage(original);
      var base := new Layer(Some(image));
      layers := layers + [base];
      activeLayerIndex := 0;
      var emptyImage := Zeros(image.height, image.width, 4);
      fakeLayer := new Layer(image := Some(emptyImage));
      finalImage := Some(image);
    }

    /** `add_layer` (ImageProcessor.py:157-160): a new layer on top becomes the active one. */
    method AddLayer(image: Option<Image> := None)
      requires Valid()
      modifies this`layers, this`activeLayerIndex
      ensures Valid()
      ensures |layers| == |old(layers)| + 1 && layers[..|old(layers)|] == old(layers)
      ensures fresh(layers[|layers| - 1])
      ensures layers[|layers| - 1].image == image && layers[|layers| - 1].visible
      ensures layers[|layers| - 1].finalImage == image
      ensures !layers[|layers| - 1].drawingEnabled
      ensures activeLayerIndex == |layers| - 1
    {
      var layer := new Layer(image);
      layers := layers + [layer];
      activeLayerIndex := |layers| - 1;
    }

    /**
     * `remove_layer` (ImageProcessor.py:162-165): an index in range deletes
     * that layer and clamps the active index to the new top; any other index
     * changes nothing.
     */
    method RemoveLayer(index: int)
      requires Valid()
      modifies this`layers, this`activeLayerIndex
      ensures Valid()
      ensures 0 <= index < |old(layers)| ==>
                layers == old(layers)[..index] + old(layers)[index + 1..] &&
                activeLayerIndex == Min(old(activeLayerIndex), |layers| - 1)
      ensures !(0 <= index < |old(layers)|) ==>
                layers == old(layers) && activeLayerIndex == old(activeLayerIndex)
    {
      if 0 <= index < |layers| {
        layers := layers[..index] + layers[index + 1..];
        activeLayerIndex := Min(activeLayerIndex, |layers| - 1);
      }
    }

    /** `set_active_layer` (ImageProcessor.py:167-169). */
    method SetActiveLayer(index: int)
      requires Valid()
      modifies this`activeLayerIndex
      ensures Valid()
      ensures activeLayerIndex == if 0 <= index < |layers| then index else old(activeLayerIndex)
    {
      if 0 <= index < |layers| {
        activeLayerIndex := index;
      }
    }

    /** `toggle_layer_visibility` (ImageProcessor.py:171-173): flips the flag of the chosen layer only. */
    method ToggleLayerVisibility(index: int)
      requires Valid()
      modifies layers
      ensures Valid()
      ensures forall j :: 0 <= j < |layers| ==>
                layers[j].visible == (if j == index then !old(layers[j].visible) else old(layers[j].visible))
      ensures forall j :: 0 <= j < |layers| ==>
                layers[j].image == old(layers[j].image) &&
                layers[j].finalImage == old(layers[j].finalImage) &&
                layers[j].drawingEnabled == old(layers[j].drawingEnabled)
    {
      if 0 <= index < |layers| {
        layers[index].ToggleVisibility();
      }
    }

    /**
     * `render_layers` (ImageProcessor.py:175-186): folds the layers' final
     * images bottom to top into `final_image`; visibility is not consulted.
     * `raised` reports the TypeError of blending onto a missing image, which
     * stops the loop and leaves the partial composite in place.
     */
    method RenderLayers(overlay: (Image, Image) -> Image) returns (raised: bool)
      modifies this`finalImage
      ensures finalImage == Shown(Render(overlay, FinalImages()))
      ensures raised == Render(overlay, FinalImages()).Raised?
    {
      ghost var finals := FinalImages();
      finalImage := None;
      raised := false;
      var i := 0;
      while i < |layers|
        invariant 0 <= i <= |layers|
        invariant finalImage == Shown(Render(overlay, finals[..i]))
        invariant !Render(overlay, finals[..i]).Raised?
      {
        var top := layers[i].finalImage;
        assert top == finals[i];
        RenderSnoc(overlay, finals, i);
        if finalImage.None? {
          finalImage := top;
        } else if top.None? {
          raised := true;
          RaisedIsFinal(overlay, finals, i + 1);
          assert FinalImages() == finals;
          return;
        } else {
          finalImage := Some(overlay(finalImage.value, top.value));
        }
        i := i + 1;
      }
      assert finals[..i] == finals;
      assert FinalImages() == finals;
    }

    /**
     * `render_element` (ImageProcessor.py:226-232): an element that already
     * has an image is skipped unless a redraw is asked for; otherwise it goes
     * to the tool registered under its tool name.
     */
    function RenderElement(element: DrawableElement, redraw: bool): (r: ElementRender)
      ensures r == Skipped <==> !redraw && element.image.Some?
      ensures r.Draw? <==> (redraw || element.image.None?) && element.tool.Some? && element.tool.value in toolNames
      ensures r.Draw? ==> Some(r.tool) == element.tool
    {
      if !redraw && element.image.Some? then Skipped
      else if element.tool.Some? && element.tool.value in toolNames then Draw(element.tool.value)
      else UnknownTool
    }
  }

  /** The final image of each layer of a list, bottom first. */
  function FinalImagesOf(ls: seq<Layer>): (r: seq<Option<Image>>)
    reads ls
    ensures |r| == |ls| && forall i :: 0 <= i < |ls| ==> r[i] == ls[i].finalImage
  {
    if ls == [] then [] else FinalImagesOf(ls[..|ls| - 1]) + [ls[|ls| - 1].finalImage]
  }
}
