/**
 * Raster images as the compositor handles them: numpy arrays of shape
 * (height, width, channels) holding 8-bit values.  The shape is kept beside
 * the pixels so that an image with no rows still has a width and a channel
 * count.
 */
module Images {

  /** `pixels[row][column][channel]`. */
  datatype Image = Image(height: nat, width: nat, channels: nat, pixels: seq<seq<seq<int>>>)

  /** The nested lists agree with the recorded shape. */
  predicate WellShaped(img: Image) {
    && |img.pixels| == img.height
    && (forall r :: 0 <= r < img.height ==> |img.pixels[r]| == img.width)
    && (forall r, c :: 0 <= r < img.height && 0 <= c < img.width ==> |img.pixels[r][c]| == img.channels)
  }

  /** Every sample fits in `uint8`. */
  predicate Bytes(img: Image)
    requires WellShaped(img)
  {
    forall r, c, k :: 0 <= r < img.height && 0 <= c < img.width && 0 <= k < img.channels ==>
      0 <= img.pixels[r][c][k] < 256
  }

  /** A well-shaped image of 8-bit samples, the only kind of array the compositor creates. */
  predicate Valid(img: Image) {
    WellShaped(img) && Bytes(img)
  }

  /**
   * `np.concatenate((image, alpha_channel), axis=2)` with `alpha_channel`
   * full of 255 (ImageProcessor.py:141-143): every pixel gains a last,
   * fully opaque sample.
   */
  function WithOpaqueAlpha(img: Image): (r: Image)
    requires Valid(img)
    ensures Valid(r)
    ensures r.height == img.height && r.width == img.width && r.channels == img.channels + 1
    ensures forall row, col :: 0 <= row < img.height && 0 <= col < img.width ==>
              r.pixels[row][col][..img.channels] == img.pixels[row][col] &&
              r.pixels[row][col][img.channels] == 255
  {
    Image(img.height, img.width, img.channels + 1,
          seq(img.height, row requires 0 <= row < img.height =>
            seq(img.width, col requires 0 <= col < img.width => img.pixels[row][col] + [255])))
  }

  /** `np.zeros((height, width, channels), dtype=np.uint8)`. */
  function Zeros(height: nat, width: nat, channels: nat): (r: Image)
    ensures Valid(r)
    ensures r.height == height && r.width == width && r.channels == channels
    ensures forall row, col, k :: 0 <= row < height && 0 <= col < width && 0 <= k < channels ==>
              r.pixels[row][col][k] == 0
  {
    Image(height, width, channels,
          seq(height, row => seq(width, col => seq(channels, k => 0))))
  }
}
