/**
 * The product image carousel: an index into the images that the arrows move
 * around a ring and the dots set directly; the image at the index is the only
 * one shown.
 */
module ProductCarousel {

  /** JavaScript's `%`: the remainder takes the sign of the dividend. */
  function JsRem(a: int, n: int): (r: int)
    requires n > 0
    ensures a >= 0 ==> r == a % n
    ensures a < 0 ==> -n < r <= 0
    ensures (a - r) % n == 0
  {
    if a >= 0 then
      ModUnique(a - a % n, n, a / n, 0);
      a % n
    else
      var q := (-a) / n;
      assert a + (-a) % n == -(q * n) == (-q) * n;
      ModUnique(a + (-a) % n, n, -q, 0);
      -((-a) % n)
  }

  /** The carousel renders only when there is at least one image. */
  predicate Renders(images: seq<string>) {
    |images| > 0
  }

  lemma MulAtLeast(k: int, n: int)
    requires k >= 1 && n > 0
    ensures k * n >= n
  {
    assert k * n == (k - 1) * n + n;
    assert (k - 1) * n >= 0;
  }

  /** The remainder is the one `r` with `x == q * n + r` and `0 <= r < n`. */
  lemma ModUnique(x: int, n: int, q: int, r: int)
    requires n > 0 && x == q * n + r && 0 <= r < n
    ensures x % n == r
  {
    var q', r' := x / n, x % n;
    assert x == q' * n + r';
    assert (q - q') * n == r' - r;
    if q - q' >= 1 {
      MulAtLeast(q - q', n);
    } else if q' - q >= 1 {
      assert (q' - q) * n == r - r';
      MulAtLeast(q' - q, n);
    }
  }

  /** `clamp(i) = (i + n) % n`: any index from -n up lands in the ring. */
  function Clamp(i: int, n: int): (r: int)
    requires n > 0
    ensures i >= -n ==> 0 <= r < n
    ensures -n <= i < 0 ==> r == i + n
    ensures 0 <= i < n ==> r == i
    ensures i == n ==> r == 0
  {
    RemCases(i + n, n);
    JsRem(i + n, n)
  }

  lemma RemCases(x: int, n: int)
    requires n > 0
    ensures 0 <= x < n ==> x % n == x
    ensures n <= x < 2 * n ==> x % n == x - n
    ensures x == 2 * n ==> x % n == 0
  {
    if 0 <= x < n {
      ModUnique(x, n, 0, x);
    } else if n <= x < 2 * n {
      ModUnique(x, n, 1, x - n);
    } else if x == 2 * n {
      ModUnique(x, n, 2, 0);
    }
  }

  function PrevIndex(i: int, n: int): (r: int)
    requires n > 0
    ensures 1 <= i <= n ==> r == i - 1
    ensures i == 0 ==> r == n - 1
  {
    Clamp(i - 1, n)
  }

  function NextIndex(i: int, n: int): (r: int)
    requires n > 0
    ensures -1 <= i < n - 1 ==> r == i + 1
    ensures i == n - 1 ==> r == 0
  {
    Clamp(i + 1, n)
  }

  /** The arrows keep any index from -n + 1 up inside the ring. */
  lemma ArrowsStayInRange(i: int, n: int)
    requires n > 0 && i >= 1 - n
    ensures 0 <= PrevIndex(i, n) < n && 0 <= NextIndex(i, n) < n
  {
  }

  /** Back after forward, and forward after back, return to the same image. */
  lemma PrevNextInverse(i: int, n: int)
    requires 0 <= i < n
    ensures PrevIndex(NextIndex(i, n), n) == i
    ensures NextIndex(PrevIndex(i, n), n) == i
  {
  }

  /** The index after `k` presses of the forward arrow. */
  function NextTimes(i: int, n: int, k: nat): int
    requires n > 0
  {
    if k == 0 then i else NextIndex(NextTimes(i, n, k - 1), n)
  }

  lemma {:induction false} NextTimesAdvances(i: int, n: int, k: nat)
    requires n > 0 && 0 <= i < n && k <= n
    ensures NextTimes(i, n, k) == if i + k < n then i + k else i + k - n
  {
    if k > 0 {
      NextTimesAdvances(i, n, k - 1);
    }
  }

  /** `n` presses of the forward arrow come back to the start. */
  lemma FullTurn(i: int, n: int)
    requires n > 0 && 0 <= i < n
    ensures NextTimes(i, n, n) == i
  {
    NextTimesAdvances(i, n, n);
  }

  /** `opacity: i === index ? 1 : 0`. */
  function Opacity(image: int, index: int): (o: int)
    ensures o == 1 <==> image == index
    ensures o == 0 || o == 1
  {
    if image == index then 1 else 0
  }

  /** With the index in range exactly one image is shown, the one at the index. */
  lemma ExactlyOneShown(index: int, n: int)
    requires 0 <= index < n
    ensures (set i | 0 <= i < n && Opacity(i, index) == 1) == {index}
  {
  }

  /** The carousel's state: the index, and how many images the current render has. */
  class Carousel {
    var index: int
    var count: int

    /** The index is never negative and there is an image to show. */
    ghost predicate Valid()
      reads this
    {
      count > 0 && index >= 0
    }

    constructor(n: int)
      requires n > 0
      ensures Valid() && index == 0 && count == n
    {
      index := 0;
      count := n;
    }

    /** A later render with `n` images keeps the index, even when it is now past the end. */
    method Rerender(n: int)
      requires n > 0
      modifies this
      ensures Valid() <==> old(index) >= 0
      ensures index == old(index) && count == n
    {
      count := n;
    }

    method Prev()
      requires Valid()
      modifies this
      ensures Valid() && 0 <= index < count
      ensures index == PrevIndex(old(index), count) && count == old(count)
    {
      index := Clamp(index - 1, count);
    }

    method Next()
      requires Valid()
      modifies this
      ensures Valid() && 0 <= index < count
      ensures index == NextIndex(old(index), count) && count == old(count)
    {
      index := Clamp(index + 1, count);
    }

    /** Clicking dot `i`. */
    method GoTo(i: int)
      requires Valid() && 0 <= i < count
      modifies this
      ensures Valid() && index == i && count == old(count)
    {
      index := i;
    }
  }
}
