/** The arithmetic of `src/utils/imageUtils.ts`: recognising an embedded image,
    estimating its decoded size, and the new dimensions `compressImage` draws at. */
module ImageUtils {
  import opened Types
  import Text

  /** What an embedded (data URI) image starts with. */
  const DataImagePrefix: string := "data:image/"

  /** The bounds the prompt form compresses uploaded images to. */
  const MaxWidth: real := 1920.0
  const MaxHeight: real := 1080.0

  /** The default size limit, in megabytes. */
  const DefaultMaxSizeMB: real := 1.0

  /** `isBase64Image`: the string is a data URI of an image. */
  function IsBase64Image(s: string): (r: bool)
    ensures r <==> |s| >= |DataImagePrefix| && s[..|DataImagePrefix|] == DataImagePrefix
  {
    Text.StartsWith(s, DataImagePrefix)
  }

  /** `getBase64Size`: `Math.ceil(length * 3 / 4)`, the number of bytes the
      base64 text encodes; never more than the length of the text. */
  function Base64Size(s: string): (n: nat)
    ensures 4 * n >= 3 * |s| && 4 * n < 3 * |s| + 4
    ensures n <= |s|
  {
    var t := 3 * |s|;
    if t % 4 == 0 then t / 4 else t / 4 + 1
  }

  /** A longer text never has a smaller estimated size. */
  lemma Base64SizeMonotone(s: string, t: string)
    requires |s| <= |t|
    ensures Base64Size(s) <= Base64Size(t)
  {
  }

  /** `isImageTooLarge`: the estimated size is above `maxSizeMB` mebibytes. */
  function IsImageTooLarge(s: string, maxSizeMB: real := DefaultMaxSizeMB): (r: bool)
    ensures r <==> (Base64Size(s) as real) > maxSizeMB * 1048576.0
  {
    var sizeBytes := Base64Size(s);
    var maxBytes := maxSizeMB * 1024.0 * 1024.0;
    sizeBytes as real > maxBytes
  }

  /** With the default limit, a text is too large exactly when it is longer than
      1398101 characters (the longest text whose estimate is at most 1 MiB). */
  lemma DefaultLimitThreshold(s: string)
    ensures IsImageTooLarge(s) <==> |s| > 1398101
  {
    var n := Base64Size(s);
    if |s| > 1398101 {
      assert 4 * n >= 3 * 1398102;
    } else {
      assert 4 * n < 3 * 1398101 + 4;
    }
  }

  /** `imageUrlToBase64`: a data URI of an image is returned as it is; any other
      URL is loaded and re-encoded by the browser, whose outcome (`None` for a
      load error) the caller supplies as `loaded`. */
  function ImageUrlToBase64(url: string, loaded: Option<string>): (r: Option<string>)
    ensures IsBase64Image(url) ==> r == Some(url)
    ensures !IsBase64Image(url) ==> r == loaded
  {
    if IsBase64Image(url) then Some(url) else loaded
  }

  /** The dimensions `compressImage` draws at: only the longer side is checked
      against its bound (the width when the image is wider than tall, the height
      otherwise) and, when over it, the image is scaled down to that bound,
      keeping the aspect ratio. */
  method FitDimensions(imgWidth: real, imgHeight: real, maxWidth: real, maxHeight: real)
    returns (width: real, height: real)
    requires imgWidth >= 0.0 && imgHeight >= 0.0 && maxWidth > 0.0 && maxHeight > 0.0
    ensures imgWidth > imgHeight && imgWidth > maxWidth ==> width == maxWidth
    ensures imgWidth <= imgHeight && imgHeight > maxHeight ==> height == maxHeight
    ensures (imgWidth > imgHeight ==> imgWidth <= maxWidth) && (imgWidth <= imgHeight ==> imgHeight <= maxHeight)
            ==> width == imgWidth && height == imgHeight
    ensures imgWidth > imgHeight ==> width <= maxWidth
    ensures imgWidth <= imgHeight ==> height <= maxHeight
    ensures 0.0 <= width <= imgWidth && 0.0 <= height <= imgHeight
    ensures width * imgHeight == height * imgWidth
  {
    width := imgWidth;
    height := imgHeight;
    if width > height {
      if width > maxWidth {
        height := (height * maxWidth) / width;
        width := maxWidth;
        assert height * imgWidth == imgHeight * maxWidth;
      }
    } else {
      if height > maxHeight {
        width := (width * maxHeight) / height;
        height := maxHeight;
        assert width * imgHeight == imgWidth * maxHeight;
      }
    }
  }

  /** Only the longer side is bounded: a 2000x1500 image fitted into 1920x1080
      comes out 1920x1440, taller than the height bound. */
  method LandscapeHeightNotBounded() returns (width: real, height: real)
    ensures width == 1920.0 && height == 1440.0
    ensures height > MaxHeight
  {
    width, height := FitDimensions(2000.0, 1500.0, MaxWidth, MaxHeight);
  }
}
