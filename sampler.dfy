/**
 * Reading the centre pixel of a captured screenshot.
 */
module Sampler {
  import opened Wrappers
  import opened Colors

  /**
   * A decoded screenshot: its size and the colour of each pixel. Every pixel
   * read from an image is a valid colour.
   */
  datatype Image = Image(width: int, height: int, pixel: (int, int) -> Color)

  /**
   * `x` is the middle index of `0 .. n-1`: it has as many indices to its right
   * as to its left, or one fewer when `n` is even.
   */
  predicate IsMiddle(x: int, n: int)
  {
    0 <= x < n && (x == n - 1 - x || x == n - x)
  }

  /** A row or column has one middle index only. */
  lemma MiddleUnique(x: int, y: int, n: int)
    requires IsMiddle(x, n) && IsMiddle(y, n)
    ensures x == y
  {
  }

  /**
   * The centre pixel's coordinates, `(width // 2, height // 2)`. The divisor
   * is positive, so Dafny's `/` agrees with Python's floor division.
   */
  function Center(width: int, height: int): (p: (int, int))
    requires width > 0 && height > 0
    ensures IsMiddle(p.0, width) && IsMiddle(p.1, height)
  {
    (width / 2, height / 2)
  }

  /**
   * The colour at the centre of the image, or `None` for an image with no
   * pixels (a width or height of zero or less).
   */
  function SampleCenter(image: Image): (r: Option<Color>)
    ensures r.Some? <==> image.width > 0 && image.height > 0
    ensures r.Some? ==> forall x, y :: IsMiddle(x, image.width) && IsMiddle(y, image.height) ==>
                          r.value == image.pixel(x, y)
  {
    if image.width <= 0 || image.height <= 0 then
      None
    else
      var (x, y) := Center(image.width, image.height);
      assert forall x', y' :: IsMiddle(x', image.width) && IsMiddle(y', image.height) ==> x' == x && y' == y by {
        forall x', y' | IsMiddle(x', image.width) && IsMiddle(y', image.height)
          ensures x' == x && y' == y
        {
          MiddleUnique(x', x, image.width);
          MiddleUnique(y', y, image.height);
        }
      }
      Some(image.pixel(x, y))
  }

  /** On an image with pixels, the sampled colour is one the image really has. */
  lemma SampleInside(image: Image)
    requires image.width > 0 && image.height > 0
    ensures exists x, y :: 0 <= x < image.width && 0 <= y < image.height &&
                           SampleCenter(image) == Some(image.pixel(x, y))
  {
    var (x, y) := Center(image.width, image.height);
    assert SampleCenter(image) == Some(image.pixel(x, y));
  }
}
