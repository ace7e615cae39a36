/**
 * The centre square that `takePhoto` cuts out of the live video frame
 * (code/meme-client/src/app.ts, lines 80-98).
 */
module Crop {

  /**
   * A square source rectangle of the video frame: side `size`, top-left
   * corner at (`x`, `y`). The offsets are reals because `(width - height) / 2`
   * is a JavaScript number, which is a half-integer when the difference is odd.
   */
  datatype Square = Square(size: nat, x: real, y: real)

  /** `Math.min` over the two video dimensions. */
  function Min(a: nat, b: nat): nat {
    if a <= b then a else b
  }

  /** The source rectangle passed to `drawImage`; the canvas is `size` by `size`. */
  function CentreSquare(width: nat, height: nat): (sq: Square)
    // the side is the shorter side of the frame
    ensures sq.size <= width && sq.size <= height
    ensures sq.size == width || sq.size == height
    // the square lies inside the frame
    ensures 0.0 <= sq.x && sq.x + sq.size as real <= width as real
    ensures 0.0 <= sq.y && sq.y + sq.size as real <= height as real
    // it is centred: the margins on the two sides of each axis are equal
    ensures sq.x + sq.size as real + sq.x == width as real
    ensures sq.y + sq.size as real + sq.y == height as real
    // the shorter axis has no offset; a square frame is taken whole
    ensures width > height ==> sq.y == 0.0
    ensures width <= height ==> sq.x == 0.0
    ensures width == height ==> sq == Square(width, 0.0, 0.0)
  {
    var size := Min(width, height);
    var x := if width > height then (width - height) as real / 2.0 else 0.0;
    var y := if width > height then 0.0 else (height - width) as real / 2.0;
    Square(size, x, y)
  }

  /** No square that fits inside the frame is larger than the crop. */
  lemma CentreSquareIsLargest(width: nat, height: nat, side: nat, x: real, y: real)
    requires 0.0 <= x && x + side as real <= width as real
    requires 0.0 <= y && y + side as real <= height as real
    ensures side <= CentreSquare(width, height).size
  {
  }
}
