/** Letterbox geometry and tensor indexing of hardware/rknpu_infer/Yolov5PostProcess.h, in
    exact arithmetic. */
module Letterboxes {
  import opened PostProcess

  const SIDE := 640

  /** Rounds half away from zero. */
  function Round(x: real): int {
    if x >= 0.0 then (x + 0.5).Floor else -((-x + 0.5).Floor)
  }

  function Clamp(x: int, lo: int, hi: int): int {
    if x < lo then lo else if x > hi then hi else x
  }

  function AtLeast(x: int, lo: int): int {
    if x < lo then lo else x
  }

  /** A distance from the margin, scaled back and kept on the axis. */
  function BackBy(x: real, k: real, size: int): int {
    Clamp(Round(x * k), 0, size)
  }

  datatype Letterbox = Letterbox(width: int, height: int, resizedW: int, resizedH: int, left: int, top: int) {

    /** One coordinate of the model's square back on an image axis of `size` pixels. */
    static function Back(x: real, margin: int, size: int, resized: int): int
      requires resized > 0
    {
      BackBy(x - margin as real, size as real / resized as real, size)
    }

    function Restore(x1: real, y1: real, x2: real, y2: real): Rect
      requires resizedW > 0 && resizedH > 0
    {
      var l, t := Back(x1, left, width, resizedW), Back(y1, top, height, resizedH);
      var r, b := Back(x2, left, width, resizedW), Back(y2, top, height, resizedH);
      Rect(l, t, AtLeast(r - l, 0), AtLeast(b - t, 0))
    }
  }

  datatype Made = Invalid | Made(box: Letterbox)

  function Scale(w: int, h: int): real
    requires w > 0 && h > 0
  {
    var sw, sh := 640.0 / w as real, 640.0 / h as real;
    if sw < sh then sw else sh
  }

  function Resized(n: int, scale: real): int {
    AtLeast(Round(n as real * scale), 1)
  }

  function Make(w: int, h: int): Made {
    if w <= 0 || h <= 0 then Invalid
    else
      var rw, rh := Resized(w, Scale(w, h)), Resized(h, Scale(w, h));
      Made(Letterbox(w, h, rw, rh, (SIDE - rw) / 2, (SIDE - rh) / 2))
  }

  // ----- rounding -----

  lemma RoundMonotone(x: real, y: real)
    requires x <= y
    ensures Round(x) <= Round(y)
  {
  }

  lemma RoundInteger(n: int)
    ensures Round(n as real) == n
  {
  }

  // ----- make -----

  lemma ScaleFits(w: int, h: int)
    requires w > 0 && h > 0
    ensures 0.0 < w as real * Scale(w, h) <= 640.0
    ensures 0.0 < h as real * Scale(w, h) <= 640.0
    ensures w >= h ==> w as real * Scale(w, h) == 640.0
    ensures h >= w ==> h as real * Scale(w, h) == 640.0
  {
    Quotient(w as real, h as real);
    Quotient(h as real, w as real);
  }

  /** a * (640 / a) is 640, and 640 / b is no larger than 640 / a when b >= a. */
  lemma Quotient(a: real, b: real)
    requires a > 0.0 && b > 0.0
    ensures a * (640.0 / a) == 640.0
    ensures b >= a ==> 640.0 / b <= 640.0 / a && 0.0 < a * (640.0 / b) <= 640.0
  {
    assert b * (640.0 / b) == 640.0;
    if b >= a {
      assert a * (640.0 / b) <= b * (640.0 / b) by { Times(a, b, 640.0 / b); }
      if 640.0 / b > 640.0 / a {
        Grows(a, 640.0 / a, 640.0 / b);
      }
    }
  }

  lemma Grows(k: real, a: real, b: real)
    requires k > 0.0 && a < b
    ensures k * a < k * b
  {
  }

  lemma TimesUp(a: real, b: real, k: real, u: real, v: real)
    requires a <= b && k >= 0.0 && u == a * k && v == b * k
    ensures u <= v
  {
    Times(a, b, k);
  }

  lemma Times(a: real, b: real, k: real)
    requires a <= b && k >= 0.0
    ensures a * k <= b * k
  {
  }

  /** The resized image keeps at least one pixel each way, fits the square with both
      margins, touches it on its longer side, and is centred to within a pixel; sizes
      that are not positive are rejected. */
  lemma MadeBoxFits(w: int, h: int)
    ensures Make(w, h).Invalid? <==> w <= 0 || h <= 0
    ensures Make(w, h).Made? ==>
      var b := Make(w, h).box;
      && b.width == w && b.height == h
      && 1 <= b.resizedW <= 640 && 1 <= b.resizedH <= 640
      && 0 <= b.left && b.left + b.resizedW <= 640 && 640 - b.resizedW - 2 * b.left <= 1
      && 0 <= b.top && b.top + b.resizedH <= 640 && 640 - b.resizedH - 2 * b.top <= 1
      && (w >= h ==> b.resizedW == 640) && (h >= w ==> b.resizedH == 640)
  {
    if w > 0 && h > 0 {
      ScaleFits(w, h);
      ResizedFits(w, Scale(w, h));
      ResizedFits(h, Scale(w, h));
    }
  }

  lemma ResizedFits(n: int, scale: real)
    requires 0.0 < n as real * scale <= 640.0
    ensures 1 <= Resized(n, scale) <= 640
    ensures n as real * scale == 640.0 ==> Resized(n, scale) == 640
  {
    RoundMonotone(n as real * scale, 640.0);
    RoundInteger(640);
  }

  predicate Nearest(n: int, exact: real) {
    exact - 0.5 < n as real <= exact + 0.5
  }

  /** The resized image has the proportions of the original: its shorter side is 640 pixels
      times short over long, to the nearest pixel, but at least one. */
  lemma MadeBoxKeepsProportions(w: int, h: int, exact: real)
    requires w > 0 && h > 0
    requires exact * Max(w, h) as real == 640.0 * Min(w, h) as real
    ensures
      var b := Make(w, h).box;
      var shorter := Min(b.resizedW, b.resizedH);
      if exact < 0.5 then shorter == 1 else Nearest(shorter, exact)
  {
    MadeBoxFits(w, h);
    ScaleFits(w, h);
    var scale := Scale(w, h);
    if w >= h {
      ShorterSide(w, h, scale, exact);
      assert Make(w, h).box.resizedH == Resized(h, scale);
    } else {
      ShorterSide(h, w, scale, exact);
      assert Make(w, h).box.resizedW == Resized(w, scale);
    }
  }

  function Max(a: int, b: int): int {
    if a < b then b else a
  }

  function Min(a: int, b: int): int {
    if a < b then a else b
  }

  lemma ShorterSide(long: int, short: int, scale: real, exact: real)
    requires long > 0 && short > 0 && long as real * scale == 640.0
    requires exact * long as real == 640.0 * short as real
    ensures if exact < 0.5 then Resized(short, scale) == 1 else Nearest(Resized(short, scale), exact)
  {
    var l, s := long as real, short as real;
    assert scale * l == 640.0;
    assert exact * l == s * 640.0;
    SameProducts(s, scale, 640.0, l, exact);
    RoundNearest(exact);
  }

  lemma RoundNearest(x: real)
    ensures x >= 0.0 ==> Nearest(Round(x), x) && Round(x) >= 0
  {
  }

  // ----- restore -----

  /** Where pixel n of an axis lands in the square. */
  function Forward(n: int, margin: int, size: int, resized: int): real
    requires size > 0
  {
    margin as real + n as real * (resized as real / size as real)
  }

  lemma BackInverts(n: int, margin: int, size: int, resized: int)
    requires 0 <= n <= size && size > 0 && resized > 0
    ensures Letterbox.Back(Forward(n, margin, size, resized), margin, size, resized) == n
  {
    var s, r := size as real, resized as real;
    var x := Forward(n, margin, size, resized) - margin as real;
    assert x == n as real * (r / s);
    Reciprocal(r, s);
    Regroup(n as real, r / s, s / r);
    BackByWhole(x, s / r, n, size);
  }

  lemma Regroup(n: real, p: real, q: real)
    requires p * q == 1.0
    ensures n * p * q == n
  {
    assert n * p * q == n * (p * q);
  }

  lemma BackByWhole(x: real, k: real, n: int, size: int)
    requires x * k == n as real && 0 <= n <= size
    ensures BackBy(x, k, size) == n
  {
    RoundInteger(n);
  }

  lemma Reciprocal(r: real, s: real)
    requires r > 0.0 && s > 0.0
    ensures (r / s) * (s / r) == 1.0
  {
    InverseFactors(r / s, s / r, r, s);
  }

  lemma InverseFactors(p: real, q: real, r: real, s: real)
    requires p * s == r && q * r == s && r > 0.0
    ensures p * q == 1.0
  {
    var x := p * q;
    assert x * r == p * (q * r);
    assert (x - 1.0) * r == x * r - r;
  }

  lemma BackMonotone(x: real, y: real, margin: int, size: int, resized: int)
    requires x <= y && size >= 0 && resized > 0
    ensures Letterbox.Back(x, margin, size, resized) <= Letterbox.Back(y, margin, size, resized)
  {
    BackByMonotone(x - margin as real, y - margin as real, size as real / resized as real, size);
  }

  lemma BackByMonotone(a: real, b: real, k: real, size: int)
    requires a <= b && k >= 0.0 && size >= 0
    ensures BackBy(a, k, size) <= BackBy(b, k, size)
  {
    var u, v := a * k, b * k;
    TimesUp(a, b, k, u, v);
    RoundMonotone(u, v);
  }

  /** One restored coordinate is the pixel nearest to the exact position, the upper one of two
      equally near, or the edge the position lies beyond. */
  lemma RestoreIsNearest(x: real, margin: int, size: int, resized: int, exact: real)
    requires size >= 0 && resized > 0
    requires exact * resized as real == (x - margin as real) * size as real
    ensures
      var n := Letterbox.Back(x, margin, size, resized);
      if exact < 0.0 then n == 0 else if exact > size as real then n == size else Nearest(n, exact)
  {
    var y := x - margin as real;
    Rescale(y, size as real, resized as real, exact);
    BackByNearest(y, size as real / resized as real, size, exact);
  }

  lemma BackByNearest(y: real, k: real, size: int, exact: real)
    requires size >= 0 && y * k == exact
    ensures
      var n := BackBy(y, k, size);
      if exact < 0.0 then n == 0 else if exact > size as real then n == size else Nearest(n, exact)
  {
    ClampedRound(exact, size);
  }

  lemma Rescale(y: real, s: real, r: real, exact: real)
    requires r > 0.0 && exact * r == y * s
    ensures y * (s / r) == exact
  {
    var k := s / r;
    SameProducts(y, k, s, r, exact);
  }

  lemma SameProducts(y: real, k: real, s: real, r: real, exact: real)
    requires r > 0.0 && k * r == s && exact * r == y * s
    ensures y * k == exact
  {
    assert y * (k * r) == (y * k) * r;
    var d := y * k - exact;
    assert d * r == 0.0;
  }

  lemma ClampedRound(exact: real, size: int)
    requires size >= 0
    ensures
      var n := Clamp(Round(exact), 0, size);
      if exact < 0.0 then n == 0 else if exact > size as real then n == size else Nearest(n, exact)
  {
  }

  ghost predicate InImage(r: Rect, w: int, h: int) {
    && 0 <= r.x && 0 <= r.y && 0 <= r.width && 0 <= r.height
    && r.x + r.width <= w && r.y + r.height <= h
  }

  /** Whatever the model outputs, the restored rectangle lies inside the image. */
  lemma RestoreStaysInImage(w: int, h: int, x1: real, y1: real, x2: real, y2: real)
    requires Make(w, h).Made?
    ensures
      var b := Make(w, h).box;
      b.resizedW > 0 && b.resizedH > 0 && InImage(b.Restore(x1, y1, x2, y2), w, h)
  {
    MadeBoxFits(w, h);
  }

  /** A box inside another stays inside it. */
  lemma RestoreIsMonotone(w: int, h: int, x1: real, y1: real, x2: real, y2: real,
                          u1: real, v1: real, u2: real, v2: real)
    requires Make(w, h).Made?
    requires u1 <= x1 <= x2 <= u2 && v1 <= y1 <= y2 <= v2
    ensures
      var b := Make(w, h).box;
      && b.resizedW > 0 && b.resizedH > 0
      && var inner, outer := b.Restore(x1, y1, x2, y2), b.Restore(u1, v1, u2, v2);
         && outer.x <= inner.x && inner.x + inner.width <= outer.x + outer.width
         && outer.y <= inner.y && inner.y + inner.height <= outer.y + outer.height
  {
    MadeBoxFits(w, h);
    var b := Make(w, h).box;
    BackMonotone(u1, x1, b.left, w, b.resizedW);
    BackMonotone(x1, x2, b.left, w, b.resizedW);
    BackMonotone(x2, u2, b.left, w, b.resizedW);
    BackMonotone(v1, y1, b.top, h, b.resizedH);
    BackMonotone(y1, y2, b.top, h, b.resizedH);
    BackMonotone(y2, v2, b.top, h, b.resizedH);
  }

  /** Restoring the image of a pixel rectangle gives the rectangle back, for every image
      size and every rectangle of whole pixels. */
  lemma RestoreInvertsLetterbox(w: int, h: int, r: Rect)
    requires Make(w, h).Made? && InImage(r, w, h)
    ensures
      var b := Make(w, h).box;
      && b.resizedW > 0 && b.resizedH > 0
      && b.Restore(Forward(r.x, b.left, w, b.resizedW), Forward(r.y, b.top, h, b.resizedH),
                   Forward(r.x + r.width, b.left, w, b.resizedW), Forward(r.y + r.height, b.top, h, b.resizedH)) == r
  {
    MadeBoxFits(w, h);
    var b := Make(w, h).box;
    BackInverts(r.x, b.left, w, b.resizedW);
    BackInverts(r.x + r.width, b.left, w, b.resizedW);
    BackInverts(r.y, b.top, h, b.resizedH);
    BackInverts(r.y + r.height, b.top, h, b.resizedH);
  }

  // ----- tensor indexing -----

  const CHANNELS := 85
  const ANCHORS := 3

  function Cells(level: nat): nat
    requires level < 3
  {
    var grid := 640 / [8, 16, 32][level];
    grid * grid
  }

  /** Where process() reads channel `channel` of anchor `a` at a cell. */
  function Index(a: nat, channel: nat, cell: nat, hw: nat): nat {
    a * CHANNELS * hw + cell + channel * hw
  }

  predicate InTensor(a: nat, channel: nat, cell: nat, hw: nat) {
    a < ANCHORS && channel < CHANNELS && cell < hw
  }

  function Plane(i: nat, hw: nat): nat
    requires hw > 0
  {
    i / hw
  }

  lemma PlaneOfIndex(a: nat, channel: nat, cell: nat, hw: nat)
    requires InTensor(a, channel, cell, hw)
    ensures Index(a, channel, cell, hw) == (a * CHANNELS + channel) * hw + cell
    ensures Plane(Index(a, channel, cell, hw), hw) == a * CHANNELS + channel
    ensures Index(a, channel, cell, hw) % hw == cell
  {
    var p := a * CHANNELS + channel;
    assert a * CHANNELS * hw + channel * hw == p * hw;
    DivideExact(p, cell, hw);
  }

  lemma DivideExact(p: nat, c: nat, hw: nat)
    requires c < hw
    ensures (p * hw + c) / hw == p && (p * hw + c) % hw == c
  {
    var n := p * hw + c;
    var q, r := n / hw, n % hw;
    assert n == q * hw + r;
    if q < p {
      LeqTimes(q + 1, p, hw);
    } else if q > p {
      LeqTimes(p + 1, q, hw);
    }
  }

  lemma LeqTimes(a: nat, b: nat, k: nat)
    requires a <= b
    ensures a * k <= b * k
  {
  }

  /** Reads stay inside the buffer whose size process() has checked, and different
      (anchor, channel, cell) triples read different elements. */
  lemma ReadsAreDisjointAndInBounds(a: nat, channel: nat, cell: nat, b: nat, channel': nat, cell': nat, hw: nat)
    requires InTensor(a, channel, cell, hw) && InTensor(b, channel', cell', hw)
    ensures Index(a, channel, cell, hw) < 255 * hw
    ensures Index(a, channel, cell, hw) == Index(b, channel', cell', hw) ==> (a, channel, cell) == (b, channel', cell')
  {
    IndexInBounds(a, channel, cell, hw);
    var i := Index(a, channel, cell, hw);
    if i == Index(b, channel', cell', hw) {
      OnePlace(i, hw, a, channel, cell);
      OnePlace(i, hw, b, channel', cell');
    }
  }

  lemma IndexInBounds(a: nat, channel: nat, cell: nat, hw: nat)
    requires InTensor(a, channel, cell, hw)
    ensures Index(a, channel, cell, hw) < 255 * hw
  {
    PlaneOfIndex(a, channel, cell, hw);
    var p := a * CHANNELS + channel;
    LeqTimes(p + 1, 255, hw);
    assert (p + 1) * hw == p * hw + hw;
  }

  /** The index alone determines anchor, channel and cell. */
  lemma OnePlace(i: nat, hw: nat, a: nat, channel: nat, cell: nat)
    requires InTensor(a, channel, cell, hw) && i == Index(a, channel, cell, hw)
    ensures cell == i % hw && a == Plane(i, hw) / CHANNELS && channel == Plane(i, hw) % CHANNELS
  {
    PlaneOfIndex(a, channel, cell, hw);
  }

  /** Every element of the buffer is the value of some anchor, channel and cell. */
  lemma EveryElementHasAnIndex(i: nat, hw: nat) returns (a: nat, channel: nat, cell: nat)
    requires i < 255 * hw
    ensures InTensor(a, channel, cell, hw) && Index(a, channel, cell, hw) == i
  {
    var p := i / hw;
    cell := i % hw;
    a, channel := p / CHANNELS, p % CHANNELS;
    assert i == p * hw + cell;
    if p >= 255 { LeqTimes(255, p, hw); }
    assert a * CHANNELS * hw + channel * hw == (a * CHANNELS + channel) * hw;
  }

  /** The three output heads hold 80 x 80, 40 x 40 and 20 x 20 cells, so their buffers
      need 255 * 6400, 255 * 1600 and 255 * 400 elements, and a cell's column and row are
      inside the grid. */
  lemma GridsTile(level: nat, cell: nat)
    requires level < 3 && cell < Cells(level)
    ensures
      var stride := [8, 16, 32][level];
      var grid := 640 / stride;
      && grid * stride == 640
      && 0 <= cell % grid < grid && 0 <= cell / grid < grid
      && cell == (cell / grid) * grid + cell % grid
  {
  }
}
