/** Removing a white watermark by reverse alpha blending. Pixel values and alphas are exact reals. */
module Watermark {

  const ALPHA_THRESHOLD := 0.002
  const MAX_ALPHA := 0.99
  const LOGO := 255.0

  datatype Placement = Placement(x: int, y: int, size: nat)

  /** Where the logo of an image of this size lies. */
  function Locate(width: nat, height: nat): Placement {
    var (size, margin) := if width > 1024 && height > 1024 then (96, 64) else (48, 32);
    Placement(width - margin - size, height - margin - size, size)
  }

  /** The logo lies within the image exactly when the image is at least 80 by 80. */
  lemma LogoInside(width: nat, height: nat)
    ensures var p := Locate(width, height);
      (0 <= p.x && p.x + p.size <= width && 0 <= p.y && p.y + p.size <= height) <==> width >= 80 && height >= 80
  {
  }

  /** The logo has 96 pixels in an image over 1024 both ways, 64 from the right and the lower edge, and 48
      in any other, 32 from both. */
  lemma LogoIs(width: nat, height: nat)
    ensures var p := Locate(width, height);
      if width > 1024 && height > 1024
      then p.size == 96 && p.x + p.size + 64 == width && p.y + p.size + 64 == height
      else p.size == 48 && p.x + p.size + 32 == width && p.y + p.size + 32 == height
  {
  }

  // ----- one channel -----

  function Clip(v: real): real {
    if v < 0.0 then 0.0 else if v > 255.0 then 255.0 else v
  }

  function Capped(alpha: real): real {
    if alpha > MAX_ALPHA then MAX_ALPHA else alpha
  }

  /** The value under the logo: unchanged where the logo is too faint to matter. */
  function Restore(marked: real, alpha: real): real {
    if alpha < ALPHA_THRESHOLD then marked
    else Clip((marked - Capped(alpha) * LOGO) / (1.0 - Capped(alpha)))
  }

  /** The value after blending the white logo over `original`. */
  function Blend(original: real, alpha: real): real {
    alpha * LOGO + (1.0 - alpha) * original
  }

  /** `astype(np.uint8)` */
  function Truncated(v: real): int { v.Floor }

  function Abs(v: real): real { if v < 0.0 then -v else v }

  lemma Quotient(n: real, d: real, q: real)
    requires d > 0.0 && n == q * d
    ensures n / d == q
  {
  }

  lemma QuotientMonotone(m: real, n: real, d: real)
    requires d > 0.0 && m <= n
    ensures m / d <= n / d
  {
  }

  /** Reverse blending undoes blending: for any alpha the algorithm treats as is, the restored value
      is off by at most `err / (1 - alpha)` when the watermarked value is off by `err`; so
      by at most 1 / (2 (1 - alpha)) after rounding to an integer, and not at all without. */
  lemma RestoreUndoesBlend(original: real, alpha: real, marked: real, err: real)
    requires 0.0 <= original <= 255.0 && ALPHA_THRESHOLD <= alpha <= MAX_ALPHA
    requires Abs(marked - Blend(original, alpha)) <= err
    ensures Abs(Restore(marked, alpha) - original) <= err / (1.0 - alpha)
    ensures -1.0 - err / (1.0 - alpha) < Truncated(Restore(marked, alpha)) as real - original <= err / (1.0 - alpha)
    ensures 0.0 <= Restore(marked, alpha) <= 255.0
  {
    var d := 1.0 - alpha;
    var e := marked - Blend(original, alpha);
    var raw := (marked - alpha * LOGO) / d;
    assert marked - alpha * LOGO == e + d * original;
    var q := e / d;
    assert q * d == e;
    assert (q + original) * d == e + original * d;
    Quotient(e + d * original, d, q + original);
    assert raw == q + original;
    QuotientMonotone(e, err, d);
    QuotientMonotone(-err, e, d);
    var b := err / d;
    assert b * d == err;
    Quotient(-err, d, -b);
    assert -b <= q <= b;
  }

  /** Above the cap a pixel that is not white comes back too light, and one fully covered comes
      back white. */
  lemma CoveredPixelIsLost(original: real, alpha: real)
    requires 0.0 <= original < 255.0 && MAX_ALPHA < alpha <= 1.0
    ensures Restore(Blend(original, alpha), alpha) > original
    ensures alpha == 1.0 ==> Restore(Blend(original, alpha), alpha) == 255.0
  {
    var n, d := Blend(original, alpha) - MAX_ALPHA * LOGO, 1.0 - MAX_ALPHA;
    var over, dark := alpha - MAX_ALPHA, LOGO - original;
    ProductPositive(over, dark);
    assert n == over * dark + original * d;
    QuotientAbove(n, d, original);
  }

  lemma QuotientAbove(n: real, d: real, q: real)
    requires d > 0.0 && n > q * d
    ensures n / d > q
  {
    var r := n / d;
    assert r * d == n;
    if r <= q { ProductNotPositive(r - q, d); }
  }

  /** Below the threshold nothing is undone, so a pixel under any logo at all stays too light. */
  lemma FaintPixelStaysMarked(original: real, alpha: real)
    requires 0.0 <= original < 255.0 && 0.0 < alpha < ALPHA_THRESHOLD
    ensures Restore(Blend(original, alpha), alpha) == Blend(original, alpha) > original
  {
    ProductPositive(alpha, LOGO - original);
    assert Blend(original, alpha) - original == alpha * (LOGO - original);
  }

  lemma ProductPositive(a: real, b: real)
    requires a > 0.0 && b > 0.0
    ensures a * b > 0.0
  {
  }

  lemma ProductNotPositive(a: real, b: real)
    requires a <= 0.0 && b > 0.0
    ensures a * b <= 0.0
  {
  }

  /** For every alpha, reverse blending is an exact inverse if and only if the logo is absent there, or
      its alpha is between the threshold and the cap, or the pixel was white anyway. */
  lemma RestoreExactIff(original: real, alpha: real)
    requires 0.0 <= original <= 255.0 && 0.0 <= alpha <= 1.0
    ensures Restore(Blend(original, alpha), alpha) == original <==>
      alpha == 0.0 || ALPHA_THRESHOLD <= alpha <= MAX_ALPHA || original == 255.0
  {
    if original == 255.0 {
      WhiteStaysWhite(alpha);
    } else if alpha > MAX_ALPHA {
      CoveredPixelIsLost(original, alpha);
    } else if alpha >= ALPHA_THRESHOLD {
      RestoreUndoesBlend(original, alpha, Blend(original, alpha), 0.0);
      Quotient(0.0, 1.0 - alpha, 0.0);
    } else if alpha > 0.0 {
      FaintPixelStaysMarked(original, alpha);
    }
  }

  lemma WhiteStaysWhite(alpha: real)
    requires 0.0 <= alpha <= 1.0
    ensures Restore(Blend(255.0, alpha), alpha) == 255.0
  {
    var d := 1.0 - Capped(alpha);
    assert Blend(255.0, alpha) == 255.0;
    assert 255.0 - Capped(alpha) * LOGO == 255.0 * d;
    Quotient(255.0 * d, d, 255.0);
  }

  // ----- the image -----

  datatype Pixel = Pixel(r: real, g: real, b: real, a: real)

  function RestorePixel(p: Pixel, alpha: real): Pixel {
    Pixel(Restore(p.r, alpha), Restore(p.g, alpha), Restore(p.b, alpha), p.a)
  }

  /** Index `i` of an axis of length `n`: NumPy counts negative ones from the end. */
  predicate InRange(i: int, n: nat) { 0 <= i + n < 2 * n }

  function Wrapped(i: int, n: nat): int {
    if i < 0 then i + n else i
  }

  /** One alpha for each position under the logo. */
  predicate Fits(alphaMap: array2<real>, p: Placement) {
    alphaMap.Length0 == alphaMap.Length1 == p.size
  }

  /** Position `(i, j)` is under the logo, in its first `rows` rows or the first `cols` columns of
      the next. */
  predicate Treated(p: Placement, i: int, j: int, rows: int, cols: int) {
    && p.y <= i < p.y + p.size && p.x <= j < p.x + p.size
    && (i < p.y + rows || (i == p.y + rows && j < p.x + cols))
  }

  function RestoreAt(c: Pixel, p: Placement, alphaMap: array2<real>, i: int, j: int, rows: int, cols: int): Pixel
    requires Fits(alphaMap, p)
    reads alphaMap
  {
    if Treated(p, i, j, rows, cols) then RestorePixel(c, alphaMap[i - p.y, j - p.x]) else c
  }

  /** What becomes of the pixel in row `y` and column `x` of an image of `height` by `width`: it is
      restored once for each position under the logo whose index stands for it, row by row. */
  function RestoreAll(c: Pixel, p: Placement, alphaMap: array2<real>, height: nat, width: nat,
                      y: int, x: int, rows: int, cols: int): Pixel
    requires Fits(alphaMap, p)
    reads alphaMap
  {
    var c1 := RestoreAt(c, p, alphaMap, y - height, x - width, rows, cols);
    var c2 := RestoreAt(c1, p, alphaMap, y - height, x, rows, cols);
    var c3 := RestoreAt(c2, p, alphaMap, y, x - width, rows, cols);
    RestoreAt(c3, p, alphaMap, y, x, rows, cols)
  }

  /** In an image that holds the whole logo, each pixel under it is restored once and no other pixel
      changes. */
  lemma InsideOnce(c: Pixel, p: Placement, alphaMap: array2<real>, height: nat, width: nat, y: int, x: int)
    requires Fits(alphaMap, p)
    requires 0 <= p.x && p.x + p.size <= width && 0 <= p.y && p.y + p.size <= height
    requires 0 <= y < height && 0 <= x < width
    ensures RestoreAll(c, p, alphaMap, height, width, y, x, p.size, 0) ==
      if p.y <= y < p.y + p.size && p.x <= x < p.x + p.size
      then RestorePixel(c, alphaMap[y - p.y, x - p.x]) else c
  {
  }

  /** The position is marked by the logo and has no index in the image. */
  predicate Outside(p: Placement, alphaMap: array2<real>, height: nat, width: nat, row: int, col: int)
    requires Fits(alphaMap, p)
    reads alphaMap
  {
    && 0 <= row < p.size && 0 <= col < p.size && alphaMap[row, col] >= ALPHA_THRESHOLD
    && !(InRange(p.y + row, height) && InRange(p.x + col, width))
  }

  lemma FaintPixels(alpha: real)
    requires alpha < ALPHA_THRESHOLD
    ensures forall c :: RestorePixel(c, alpha) == c
  {
  }

  /** Treating one more position restores the pixel it stands for, and no other. */
  lemma OneMore(c: Pixel, p: Placement, alphaMap: array2<real>, height: nat, width: nat, y: int, x: int, row: int, col: int)
    requires Fits(alphaMap, p) && 0 <= row < p.size && 0 <= col < p.size && 0 <= y < height && 0 <= x < width
    ensures var before := RestoreAll(c, p, alphaMap, height, width, y, x, row, col);
      RestoreAll(c, p, alphaMap, height, width, y, x, row, col + 1) ==
        if InRange(p.y + row, height) && InRange(p.x + col, width)
           && y == Wrapped(p.y + row, height) && x == Wrapped(p.x + col, width)
        then RestorePixel(before, alphaMap[row, col]) else before
  {
    hide Restore;
  }

  lemma NextRow(c: Pixel, p: Placement, alphaMap: array2<real>, height: nat, width: nat, y: int, x: int, row: int)
    requires Fits(alphaMap, p)
    ensures RestoreAll(c, p, alphaMap, height, width, y, x, row, p.size) == RestoreAll(c, p, alphaMap, height, width, y, x, row + 1, 0)
  {
    hide Restore;
  }

  /** The first `row` rows of the logo, and `col` columns of the next, have been treated. */
  ghost predicate Done(image: array2<Pixel>, was: map<(int, int), Pixel>, p: Placement, alphaMap: array2<real>, row: int, col: int)
    requires Fits(alphaMap, p)
    reads image, alphaMap
  {
    && (forall y, x :: 0 <= y < image.Length0 && 0 <= x < image.Length1 ==>
          (y, x) in was && image[y, x] == RestoreAll(was[(y, x)], p, alphaMap, image.Length0, image.Length1, y, x, row, col))
    && (forall i, j :: (0 <= i < row || (i == row && j < col)) ==> !Outside(p, alphaMap, image.Length0, image.Length1, i, j))
  }

  ghost function Snapshot(image: array2<Pixel>): (was: map<(int, int), Pixel>)
    reads image
    ensures forall y, x :: 0 <= y < image.Length0 && 0 <= x < image.Length1 ==> (y, x) in was && was[(y, x)] == image[y, x]
  {
    map y, x | 0 <= y < image.Length0 && 0 <= x < image.Length1 :: (y, x) := image[y, x]
  }

  /** Restores the colours under the logo, in place. Fails exactly when the logo marks a position that
      has no index. */
  method RemoveWatermark(image: array2<Pixel>, alphaMap: array2<real>, p: Placement) returns (ok: bool)
    requires Fits(alphaMap, p)
    modifies image
    ensures ok <==> forall row, col :: !Outside(p, alphaMap, image.Length0, image.Length1, row, col)
    ensures ok ==> forall y, x :: 0 <= y < image.Length0 && 0 <= x < image.Length1 ==>
      image[y, x] == RestoreAll(old(image[y, x]), p, alphaMap, image.Length0, image.Length1, y, x, p.size, 0)
  {
    ghost var was := Snapshot(image);
    Untreated(image, was, p, alphaMap);
    hide RestoreAll, RestorePixel, Done, Outside, Snapshot;
    var row := 0;
    while row < p.size
      invariant 0 <= row <= p.size && Done(image, was, p, alphaMap, row, 0)
    {
      ok := RestoreRow(image, alphaMap, p, row, was);
      if !ok {
        return;
      }
      row := row + 1;
    }
    AllDone(image, was, p, alphaMap);
    ok := true;
  }

  method RestoreRow(image: array2<Pixel>, alphaMap: array2<real>, p: Placement, row: nat, ghost was: map<(int, int), Pixel>)
    returns (ok: bool)
    requires Fits(alphaMap, p) && row < p.size && Done(image, was, p, alphaMap, row, 0)
    modifies image
    ensures ok ==> Done(image, was, p, alphaMap, row + 1, 0)
    ensures !ok ==> exists col :: Outside(p, alphaMap, image.Length0, image.Length1, row, col)
  {
    hide RestoreAll, RestorePixel, Done, Outside;
    var col := 0;
    while col < p.size
      invariant 0 <= col <= p.size && Done(image, was, p, alphaMap, row, col)
    {
      ok := RestorePosition(image, alphaMap, p, row, col, was);
      if !ok {
        return;
      }
      col := col + 1;
    }
    RowDone(image, was, p, alphaMap, row);
    ok := true;
  }

  lemma Untreated(image: array2<Pixel>, was: map<(int, int), Pixel>, p: Placement, alphaMap: array2<real>)
    requires Fits(alphaMap, p)
    requires forall y, x :: 0 <= y < image.Length0 && 0 <= x < image.Length1 ==> (y, x) in was && was[(y, x)] == image[y, x]
    ensures Done(image, was, p, alphaMap, 0, 0)
  {
  }

  lemma AllDone(image: array2<Pixel>, was: map<(int, int), Pixel>, p: Placement, alphaMap: array2<real>)
    requires Fits(alphaMap, p) && Done(image, was, p, alphaMap, p.size, 0)
    ensures forall y, x :: 0 <= y < image.Length0 && 0 <= x < image.Length1 ==>
      (y, x) in was && image[y, x] == RestoreAll(was[(y, x)], p, alphaMap, image.Length0, image.Length1, y, x, p.size, 0)
    ensures forall i, j :: !Outside(p, alphaMap, image.Length0, image.Length1, i, j)
  {
  }

  lemma RowDone(image: array2<Pixel>, was: map<(int, int), Pixel>, p: Placement, alphaMap: array2<real>, row: nat)
    requires Fits(alphaMap, p) && Done(image, was, p, alphaMap, row, p.size)
    ensures Done(image, was, p, alphaMap, row + 1, 0)
  {
    forall y, x | 0 <= y < image.Length0 && 0 <= x < image.Length1
      ensures image[y, x] == RestoreAll(was[(y, x)], p, alphaMap, image.Length0, image.Length1, y, x, row + 1, 0)
    {
      NextRow(was[(y, x)], p, alphaMap, image.Length0, image.Length1, y, x, row);
    }
  }

  /** One position under the logo. */
  method RestorePosition(image: array2<Pixel>, alphaMap: array2<real>, p: Placement, row: nat, col: nat, ghost was: map<(int, int), Pixel>)
    returns (ok: bool)
    requires Fits(alphaMap, p) && row < p.size && col < p.size && Done(image, was, p, alphaMap, row, col)
    modifies image
    ensures ok <==> !Outside(p, alphaMap, image.Length0, image.Length1, row, col)
    ensures ok ==> Done(image, was, p, alphaMap, row, col + 1)
  {
    var height, width := image.Length0, image.Length1;
    var i, j := p.y + row, p.x + col;
    if alphaMap[row, col] >= ALPHA_THRESHOLD && !(InRange(i, height) && InRange(j, width)) {
      return false;
    }
    forall y, x | 0 <= y < height && 0 <= x < width
      ensures RestoreAll(was[(y, x)], p, alphaMap, height, width, y, x, row, col + 1) ==
        if InRange(i, height) && InRange(j, width) && y == Wrapped(i, height) && x == Wrapped(j, width)
        then RestorePixel(image[y, x], alphaMap[row, col]) else image[y, x]
    {
      OneMore(was[(y, x)], p, alphaMap, height, width, y, x, row, col);
    }
    hide RestoreAll, RestorePixel;
    if alphaMap[row, col] >= ALPHA_THRESHOLD {
      RestoreColours(image, Wrapped(i, height), Wrapped(j, width), alphaMap[row, col]);
    } else {
      FaintPixels(alphaMap[row, col]);
    }
    ok := true;
  }

  method RestoreColours(image: array2<Pixel>, y: int, x: int, alpha: real)
    requires 0 <= y < image.Length0 && 0 <= x < image.Length1 && alpha >= ALPHA_THRESHOLD
    modifies image
    ensures forall i, j :: 0 <= i < image.Length0 && 0 <= j < image.Length1 ==>
      image[i, j] == if i == y && j == x then RestorePixel(old(image[i, j]), alpha) else old(image[i, j])
  {
    var c := image[y, x];
    var capped := if alpha > MAX_ALPHA then MAX_ALPHA else alpha;
    var rest := 1.0 - capped;
    image[y, x] := Pixel(Clip((c.r - capped * LOGO) / rest),
                         Clip((c.g - capped * LOGO) / rest),
                         Clip((c.b - capped * LOGO) / rest), c.a);
  }
}
