/** The image library as the camera driver uses it. Images are opaque values
    that remember how they were produced and carry a size; the pixel
    semantics of filtering, cropping, pasting and overlay rendering are not
    modelled. */
module Images {
  import opened Wrappers

  datatype Size = Size(width: int, height: int)
  datatype Point = Point(x: int, y: int)

  /** A crop box as the image library takes it: left, upper, right, lower. */
  datatype Box = Box(left: int, upper: int, right: int, lower: int)

  /** What an overlay shows: a countdown numeral or the translated "smile" prompt. */
  datatype OverlayContent = Countdown(seconds: nat) | SmilePrompt

  datatype Image =
    | Frame(id: nat, frameSize: Size)                                 // delivered by the sensor
    | Rendered(canvas: Size, text: Option<OverlayContent>, alpha: int) // a built overlay
    | Filtered(source: Image, filter: string)                         // image.filter(ImageFilter.<filter>)
    | Cropped(source: Image, box: Box)                                // image.crop(box)
    | Pasted(base: Image, layer: Image, at: Point, mask: Image)       // base.paste(layer, at, mask)

  /** The size of an image: filtering and pasting keep it, cropping takes the box's. */
  function SizeOf(img: Image): Size
  {
    match img
    case Frame(_, s) => s
    case Rendered(s, _, _) => s
    case Filtered(src, _) => SizeOf(src)
    case Cropped(_, b) => Size(b.right - b.left, b.lower - b.upper)
    case Pasted(base, _, _, _) => SizeOf(base)
  }

  /** The predefined filters the image library exposes as upper-case names. */
  const FilterNames: set<string> :=
    {"BLUR", "CONTOUR", "DETAIL", "EDGE_ENHANCE", "EDGE_ENHANCE_MORE",
     "EMBOSS", "FIND_EDGES", "SHARPEN", "SMOOTH", "SMOOTH_MORE"}

  function UpperChar(c: char): char
  {
    if 'a' <= c <= 'z' then (c as int - 32) as char else c
  }

  /** Upper-casing of ASCII letters; other characters are kept. */
  function Upper(s: string): (r: string)
    ensures |r| == |s|
    ensures forall i :: 0 <= i < |r| ==> !('a' <= r[i] <= 'z')
    ensures forall i :: 0 <= i < |s| && !('a' <= s[i] <= 'z') ==> r[i] == s[i]
    ensures forall i :: 0 <= i < |s| && 'a' <= s[i] <= 'z' ==> r[i] as int == s[i] as int - 32
  {
    seq(|s|, i requires 0 <= i < |s| => UpperChar(s[i]))
  }

  /** Upper-casing twice is upper-casing once. */
  lemma UpperIdempotent(s: string)
    ensures Upper(Upper(s)) == Upper(s)
  {
  }
}
