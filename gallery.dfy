/** The gallery index stepped by the five-second interval callback of the
    sketch: the index is reduced modulo 15 and then advanced, wrapping to 0
    when it reaches the number of images (hard-coded as 6). */
module Gallery {

  /** The number of images the callback assumes (`assets.length`). */
  const GallerySize: int := 6

  /** The modulus the callback applies before stepping. */
  const IndexModulus: int := 15

  /** JavaScript's `%` on integers: truncated toward zero, so the result
      carries the sign of the dividend (Dafny's own `%` never goes negative). */
  function JsRem(a: int, b: int): (r: int)
    requires b > 0
    ensures 0 <= a ==> 0 <= r < b
    ensures a < 0 ==> -b < r <= 0
  {
    if a >= 0 then a % b else -((-a) % b)
  }

  /** One interval callback: `i % 15`, then `0` if the successor is 6,
      else the successor. */
  function NextIndex(i: int): (j: int)
    ensures 0 <= i < GallerySize ==> j == (i + 1) % GallerySize
    ensures 0 <= i < GallerySize ==> 0 <= j < GallerySize
    ensures 0 <= i ==> 0 <= j <= IndexModulus && j != GallerySize
  {
    var m := JsRem(i, IndexModulus);
    if m + 1 == GallerySize then 0 else m + 1
  }

  /** The index after `n` interval callbacks. */
  function Ticks(i: int, n: nat): int
    decreases n
  {
    if n == 0 then i else Ticks(NextIndex(i), n - 1)
  }

  /** From any index of the gallery, `n` callbacks advance it by `n`
      modulo the gallery size; in particular it never leaves the gallery. */
  lemma {:induction false} TicksCycle(i: int, n: nat)
    requires 0 <= i < GallerySize
    ensures Ticks(i, n) == (i + n) % GallerySize
    ensures 0 <= Ticks(i, n) < GallerySize
    decreases n
  {
    if n > 0 {
      var j := NextIndex(i);
      TicksCycle(j, n - 1);
      if i + 1 < GallerySize {
        assert j == i + 1;
      } else {
        assert j == 0 && i + n == (n - 1) + GallerySize;
        ShiftByGallerySize(n - 1);
      }
    }
  }

  /** Adding the gallery size does not change a remainder. */
  lemma ShiftByGallerySize(x: int)
    ensures (x + GallerySize) % GallerySize == x % GallerySize
  {
  }

  /** Starting from 0, six callbacks visit 1, 2, 3, 4, 5 and then 0. */
  lemma SixTicksVisitEveryImage()
    ensures [Ticks(0, 1), Ticks(0, 2), Ticks(0, 3), Ticks(0, 4), Ticks(0, 5), Ticks(0, 6)]
         == [1, 2, 3, 4, 5, 0]
  {
    TicksCycle(0, 1); TicksCycle(0, 2); TicksCycle(0, 3);
    TicksCycle(0, 4); TicksCycle(0, 5); TicksCycle(0, 6);
  }
}
