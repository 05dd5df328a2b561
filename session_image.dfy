/** The checkerboard-removal pass of the session-summary image script:
    every pixel that looks like a tile of the grey checkerboard (or is
    already mostly transparent) is made fully transparent, in place, in
    the RGBA pixel buffer. */
module SessionImage {

  /** One 8-bit colour or alpha channel. */
  newtype Channel = x: int | 0 <= x < 256

  /** An RGBA pixel. */
  datatype Rgba = Rgba(r: Channel, g: Channel, b: Channel, a: Channel)

  /** `abs(x - y)`. */
  function Dist(x: int, y: int): nat {
    if x < y then y - x else x - y
  }

  /** `is_checker_grey`: mostly transparent pixels (alpha below 200) count
      as checkerboard whatever their colour; an opaque pixel counts when
      its channels' average lies between 25 and 120 (that is, their sum
      lies between 75 and 360) and no two channels differ by more than 25. */
  predicate IsCheckerGrey(r: int, g: int, b: int, a: int)
    ensures a < 200 ==> IsCheckerGrey(r, g, b, a)
    ensures a >= 200 ==>
      (IsCheckerGrey(r, g, b, a) <==>
         75 <= r + g + b <= 360 && Dist(r, g) <= 25 && Dist(g, b) <= 25 && Dist(r, b) <= 25)
  {
    if a < 200 then true
    else
      var avg := (r + g + b) as real / 3.0;
      25.0 <= avg <= 120.0 && Dist(r, g) <= 25 && Dist(g, b) <= 25 && Dist(r, b) <= 25
  }

  predicate IsChecker(p: Rgba) {
    IsCheckerGrey(p.r as int, p.g as int, p.b as int, p.a as int)
  }

  /** The pixel as the pass leaves it: transparent with the same colour
      when it is checkerboard, untouched otherwise. */
  function Cleared(p: Rgba): (q: Rgba)
    ensures q.r == p.r && q.g == p.g && q.b == p.b
    ensures IsChecker(p) ==> q.a == 0
    ensures !IsChecker(p) ==> q == p
  {
    if IsChecker(p) then p.(a := 0) else p
  }

  /** A cleared pixel is cleared already: clearing is idempotent. */
  lemma ClearedIdempotent(p: Rgba)
    ensures Cleared(Cleared(p)) == Cleared(p)
    ensures IsChecker(Cleared(p)) <==> IsChecker(p)
  {
    if IsChecker(p) {
      assert Cleared(p).a == 0;
      assert IsChecker(Cleared(p));
    }
  }

  /** The pass over the image: rows from top to bottom, each row left to
      right, with `px[x, y]` the pixel in column x of row y. Every pixel
      ends up as `Cleared` of what it was, so a second pass would change
      nothing. */
  method ClearCheckerboard(px: array2<Rgba>)
    modifies px
    ensures forall x, y :: 0 <= x < px.Length0 && 0 <= y < px.Length1 ==>
      px[x, y] == Cleared(old(px[x, y]))
    ensures forall x, y :: 0 <= x < px.Length0 && 0 <= y < px.Length1 ==> Cleared(px[x, y]) == px[x, y]
  {
    var w, h := px.Length0, px.Length1;
    var y := 0;
    while y < h
      invariant 0 <= y <= h
      invariant forall x, y' :: 0 <= x < w && 0 <= y' < y ==> px[x, y'] == Cleared(old(px[x, y']))
      invariant forall x, y' :: 0 <= x < w && y <= y' < h ==> px[x, y'] == old(px[x, y'])
    {
      var x := 0;
      while x < w
        invariant 0 <= x <= w
        invariant forall x', y' :: 0 <= x' < w && 0 <= y' < y ==> px[x', y'] == Cleared(old(px[x', y']))
        invariant forall x' :: 0 <= x' < x ==> px[x', y] == Cleared(old(px[x', y]))
        invariant forall x' :: x <= x' < w ==> px[x', y] == old(px[x', y])
        invariant forall x', y' :: 0 <= x' < w && y < y' < h ==> px[x', y'] == old(px[x', y'])
      {
        var p := px[x, y];
        if IsCheckerGrey(p.r as int, p.g as int, p.b as int, p.a as int) {
          px[x, y] := Rgba(p.r, p.g, p.b, 0);
        }
        x := x + 1;
      }
      y := y + 1;
    }
    forall x, y' | 0 <= x < w && 0 <= y' < h ensures Cleared(px[x, y']) == px[x, y'] {
      ClearedIdempotent(old(px[x, y']));
    }
  }
}
