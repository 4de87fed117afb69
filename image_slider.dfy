/**
 * The image slider (image-slider/main.js): a fixed list of nine images, a
 * current index moved by the next and previous buttons with wraparound, and
 * a strip of equal-width slides shifted so that the current one is visible.
 */
module SliderIndex {

  const Images: seq<string> := [
    "./assets/img/players/akash.JPG",
    "./assets/img/players/nissan.JPG",
    "./assets/img/players/kajol.JPG",
    "./assets/img/players/shuvo.JPG",
    "./assets/img/players/sultan.JPG",
    "./assets/img/players/khabir.JPG",
    "./assets/img/players/taqbir.JPG",
    "./assets/img/players/anwar.JPG",
    "./assets/img/players/rayhan.JPG"
  ]

  /** JavaScript's `%`, which truncates toward zero: the result takes the sign of `a`. */
  function JsRemainder(a: int, b: int): (r: int)
    requires b > 0
    ensures a >= 0 ==> r == a % b
    ensures a < 0 ==> -b < r <= 0 && (a - r) % b == 0
    ensures -b < r < b
  {
    if a >= 0 then a % b
    else
      var r := -((-a) % b);
      ModUnique(a - r, -((-a) / b), 0, b);
      r
  }

  /** nextSlide's index: one further, wrapping from the last image to the first. */
  function NextIndex(i: int, n: int): (r: int)
    requires n > 0
    ensures 0 <= i < n ==> 0 <= r < n
    ensures 0 <= i < n - 1 ==> r == i + 1
    ensures i == n - 1 ==> r == 0
  {
    JsRemainder(i + 1, n)
  }

  /** prevSlide's index: one back, wrapping from the first image to the last. */
  function PrevIndex(i: int, n: int): (r: int)
    requires n > 0
    ensures 0 <= i < n ==> 0 <= r < n
    ensures 0 < i < n ==> r == i - 1
    ensures i == 0 ==> r == n - 1
  {
    JsRemainder(i - 1 + n, n)
  }

  /** Going forward then back, or back then forward, returns to the same image. */
  lemma NextPrevInverse(i: int, n: int)
    requires 0 <= i < n
    ensures PrevIndex(NextIndex(i, n), n) == i
    ensures NextIndex(PrevIndex(i, n), n) == i
  {
  }

  /** The index after k presses of the next button. */
  function Advance(i: int, k: nat, n: int): int
    requires n > 0
  {
    if k == 0 then i else NextIndex(Advance(i, k - 1, n), n)
  }

  lemma {:induction false} MulAtLeast(d: int, n: int)
    requires d >= 1 && n > 0
    ensures d * n >= n
    decreases d
  {
    if d > 1 {
      MulAtLeast(d - 1, n);
      assert d * n == (d - 1) * n + n;
    }
  }

  /** Division by n has one quotient and remainder. */
  lemma ModUnique(a: int, q: int, r: int, n: int)
    requires n > 0 && 0 <= r < n && a == q * n + r
    ensures a % n == r
  {
    var q' := a / n;
    var m := a % n;
    assert a == q' * n + m;
    assert (q - q') * n == q * n - q' * n;
    if q > q' {
      MulAtLeast(q - q', n);
    } else if q < q' {
      MulAtLeast(q' - q, n);
    }
  }

  /** One press of next from x's place on the circle is x + 1's place. */
  lemma NextOfRemainder(x: nat, n: int)
    requires n > 0
    ensures NextIndex(x % n, n) == (x + 1) % n
  {
    var q := x / n;
    var r := x % n;
    if r == n - 1 {
      ModUnique(x + 1, q + 1, 0, n);
    } else {
      ModUnique(x + 1, q, r + 1, n);
    }
  }

  /** k presses of next move k places around the circle of n images. */
  lemma {:induction false} AdvanceIsModulo(i: int, k: nat, n: int)
    requires 0 <= i < n
    ensures Advance(i, k, n) == (i + k) % n
  {
    if k == 0 {
      ModUnique(i, 0, i, n);
    } else {
      AdvanceIsModulo(i, k - 1, n);
      NextOfRemainder(i + k - 1, n);
    }
  }

  /** As many next presses as there are images come back to the starting image. */
  lemma FullCycle(i: int)
    requires 0 <= i < |Images|
    ensures Advance(i, |Images|, |Images|) == i
  {
    AdvanceIsModulo(i, |Images|, |Images|);
    ModUnique(i + |Images|, 1, i, |Images|);
  }

  /** One slide of the strip: its width in percent, its background and its image. */
  datatype Slide = Slide(widthPercent: real, background: string, imageSource: string, alt: string)

  /** Each slide's share of the strip, in percent. */
  function SlideWidth(n: nat): (w: real)
    requires n > 0
    ensures w * n as real == 100.0
  {
    100.0 / n as real
  }

  /** The slide createSlides builds for one image. */
  function SlideFor(image: string, n: nat): (s: Slide)
    requires n > 0
    ensures s.imageSource == image && s.widthPercent == SlideWidth(n)
  {
    Slide(SlideWidth(n), "url(" + image + ") no-repeat center center", image, "Image Slide")
  }

  /** showSlide's translateX, in percent of the strip: slide i's left edge moves to the strip's origin. */
  function Offset(i: int, n: nat): (x: real)
    requires n > 0
    ensures x + i as real * SlideWidth(n) == 0.0
    ensures 0 <= i < n ==> -100.0 < x <= 0.0
  {
    -(i as real) * SlideWidth(n)
  }
}

/** The page's slider: the current index and the strip's transform, changed in place by the two buttons. */
module ImageSlider {
  import opened Wrappers
  import opened SliderIndex

  class Slider {
    const images: seq<string>
    var currentSlide: int
    var slides: seq<Slide>
    var stripWidthPercent: real
    var transform: Option<real>

    predicate Valid()
      reads this
    {
      |images| > 0 && 0 <= currentSlide < |images|
    }

    /** The page's script: the index starts at 0 and createSlides builds one slide per image. */
    constructor ()
      ensures Valid() && images == Images && currentSlide == 0 && transform == None
      ensures |slides| == |images|
      ensures forall k :: 0 <= k < |images| ==> slides[k] == SlideFor(images[k], |images|)
      ensures stripWidthPercent == |images| as real * 100.0
    {
      images := Images;
      currentSlide := 0;
      transform := None;
      slides := [];
      stripWidthPercent := 0.0;
      new;
      CreateSlides();
    }

    method CreateSlides()
      requires |images| > 0
      modifies this`slides, this`stripWidthPercent
      ensures |slides| == |images|
      ensures forall k :: 0 <= k < |images| ==> slides[k] == SlideFor(images[k], |images|)
      ensures stripWidthPercent == |images| as real * 100.0
    {
      var totalSlides := |images|;
      stripWidthPercent := totalSlides as real * 100.0;
      slides := [];
      var k := 0;
      while k < totalSlides
        invariant 0 <= k <= totalSlides
        invariant |slides| == k
        invariant stripWidthPercent == totalSlides as real * 100.0
        invariant forall j :: 0 <= j < k ==> slides[j] == SlideFor(images[j], totalSlides)
      {
        slides := slides + [SlideFor(images[k], totalSlides)];
        k := k + 1;
      }
    }

    method ShowSlide(slideIndex: int)
      requires |images| > 0
      modifies this`transform
      ensures transform == Some(Offset(slideIndex, |images|))
    {
      transform := Some(Offset(slideIndex, |images|));
    }

    method NextSlide()
      requires Valid()
      modifies this`currentSlide, this`transform
      ensures Valid()
      ensures currentSlide == NextIndex(old(currentSlide), |images|)
      ensures transform == Some(Offset(currentSlide, |images|))
    {
      currentSlide := JsRemainder(currentSlide + 1, |images|);
      ShowSlide(currentSlide);
    }

    method PrevSlide()
      requires Valid()
      modifies this`currentSlide, this`transform
      ensures Valid()
      ensures currentSlide == PrevIndex(old(currentSlide), |images|)
      ensures transform == Some(Offset(currentSlide, |images|))
    {
      currentSlide := JsRemainder(currentSlide - 1 + |images|, |images|);
      ShowSlide(currentSlide);
    }
  }

  /** From the first image, previous shows the last one and next then shows the first again. */
  method BrowseAround()
  {
    var slider := new Slider();
    slider.PrevSlide();
    assert slider.currentSlide == 8;
    slider.NextSlide();
    assert slider.currentSlide == 0;
  }
}
