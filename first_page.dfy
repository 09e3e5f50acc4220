/** The front-page slideshow: three background images cross-fade under one
    index, which also picks the "visit" card shown beside them. The index
    advances on a five-second interval and on the Next button. */
module FirstPage {
  import opened JsValues

  /** One entry of the visit-card data. */
  datatype VisitCardData = VisitCardData(title: string, description: string)

  const ImageUrls: seq<string> := [
    "../src/assets/images/first_front_page_wallpaper/AddisView.jpg",
    "../src/assets/images/first_front_page_wallpaper/nightbg_960x539.jpg",
    "../src/assets/images/first_front_page_wallpaper/3.jpg"
  ]

  const CardsData: seq<VisitCardData> := [
    VisitCardData("Visit Sheger Park",
      "Sheger Park (Amharic: \U{1238}\U{1308}\U{122D} \U{1353}\U{122D}\U{12AD}), also known as Friendship Park, is the biggest urban park in Addis Ababa, Ethiopia. The park is right next to Unity Park (which houses a zoo, and historical archives)Sheger Park was opened on 10 September 2020, in the presence of high-level Ethiopian government ministers, the president, the prime minister and the first lady"),
    VisitCardData("Visit Adwa Museum",
      "The Adwa Victory Memorial Museum, or Adwa Museum, is a new museum in Addis Ababa. It honors Ethiopia's historic win over Italy in the 1896 Battle of Adwa. The museum stands as a proud symbol of Ethiopia's strength, unity, and fight for freedom. located in the Piazza area and St. George's Cathedral"),
    VisitCardData("Visit Addis Ababa at Night",
      "Experience the vibrant nightlife of the city. From bustling markets to lively entertainment districts, Addis Ababa offers a unique after-dark adventure with a dynamic atmosphere and stunning city lights.")
  ]

  /** The source an image falls back to when it fails to load. */
  const ErrorPlaceholder: string := "https://placehold.co/960x539/2E86C1/white?text=Image+Load+Error"

  /** `(prevIndex + 1) % image_url_list.length`: one step round the images. */
  function Advance(i: int): (r: int)
    ensures 0 <= i < |ImageUrls| - 1 ==> r == i + 1
    ensures i == |ImageUrls| - 1 ==> r == 0
    ensures -1 <= i ==> 0 <= r < |ImageUrls|
  {
    Rem(i + 1, |ImageUrls|)
  }

  /** The index after `k` advances. */
  function AdvanceTimes(i: int, k: nat): int {
    if k == 0 then i else Advance(AdvanceTimes(i, k - 1))
  }

  /** `k` advances from a valid index land `k` places further on, modulo
      the number of images. */
  lemma {:induction false} AdvanceTimesIsShift(i: int, k: nat)
    requires 0 <= i < |ImageUrls|
    ensures AdvanceTimes(i, k) == (i + k) % |ImageUrls|
  {
    if k > 0 {
      AdvanceTimesIsShift(i, k - 1);
      var p := AdvanceTimes(i, k - 1);
      var n := |ImageUrls|;
      var q := (i + k - 1) / n;
      assert i + k - 1 == n * q + p;
      if p == n - 1 {
        ModUnique(i + k, n, q + 1, 0);
      } else {
        ModUnique(i + k, n, q, p + 1);
      }
    }
  }

  /** As many advances as there are images bring the index back, and every
      index is reached from every other within one round. */
  lemma FullRoundReturns(i: int, j: int)
    requires 0 <= i < |ImageUrls| && 0 <= j < |ImageUrls|
    ensures AdvanceTimes(i, |ImageUrls|) == i
    ensures AdvanceTimes(i, (j - i) % |ImageUrls|) == j
  {
    AdvanceTimesIsShift(i, |ImageUrls|);
    ModUnique(i + |ImageUrls|, |ImageUrls|, 1, i);
    var k := (j - i) % |ImageUrls|;
    AdvanceTimesIsShift(i, k);
    if j >= i {
      assert k == j - i;
    } else {
      ModUnique(j - i, |ImageUrls|, -1, j - i + |ImageUrls|);
      ModUnique(i + k, |ImageUrls|, 1, j);
    }
  }

  /** One background image with its current source and whether it is the
      faded-in one (`opacity-100`). */
  datatype ImageView = ImageView(src: string, visible: bool)

  datatype PageView = PageView(images: seq<ImageView>, card: VisitCardData)

  /** The rendered page for an index and the current image sources. */
  function RenderPage(currentIndex: int, srcs: seq<string>): (v: PageView)
    requires 0 <= currentIndex < |CardsData|
    ensures |v.images| == |srcs|
    ensures forall k :: 0 <= k < |srcs| ==> v.images[k].src == srcs[k]
    ensures v.card == CardsData[currentIndex]
  {
    PageView(seq(|srcs|, k requires 0 <= k < |srcs| => ImageView(srcs[k], k == currentIndex)),
             CardsData[currentIndex])
  }

  /** Exactly one image is visible: the one at the index. */
  lemma ExactlyOneVisible(currentIndex: int, srcs: seq<string>)
    requires 0 <= currentIndex < |CardsData| && |srcs| == |ImageUrls|
    ensures RenderPage(currentIndex, srcs).images[currentIndex].visible
    ensures forall k :: 0 <= k < |srcs| && RenderPage(currentIndex, srcs).images[k].visible ==> k == currentIndex
  {}

  class Page {
    var currentIndex: int
    var imageSrcs: seq<string>

    /** The index selects a card, and every image shows its own URL or, after
        a load error, the placeholder. */
    ghost predicate Valid()
      reads this
    {
      0 <= currentIndex < |ImageUrls| && |ImageUrls| == |CardsData| &&
      |imageSrcs| == |ImageUrls| &&
      forall k :: 0 <= k < |imageSrcs| ==> imageSrcs[k] == ImageUrls[k] || imageSrcs[k] == ErrorPlaceholder
    }

    constructor ()
      ensures Valid()
      ensures currentIndex == 0 && imageSrcs == ImageUrls
    {
      currentIndex := 0;
      imageSrcs := ImageUrls;
    }

    /** The Next button. */
    method HandleNext()
      requires Valid()
      modifies this
      ensures Valid()
      ensures currentIndex == Advance(old(currentIndex)) && imageSrcs == old(imageSrcs)
    {
      currentIndex := Advance(currentIndex);
    }

    /** One firing of the five-second interval. */
    method Tick()
      requires Valid()
      modifies this
      ensures Valid()
      ensures currentIndex == Advance(old(currentIndex)) && imageSrcs == old(imageSrcs)
    {
      currentIndex := Advance(currentIndex);
    }

    /** The image at position `k` failed to load. */
    method OnImageError(k: nat)
      requires Valid() && k < |imageSrcs|
      modifies this
      ensures Valid()
      ensures imageSrcs == old(imageSrcs)[k := ErrorPlaceholder] && currentIndex == old(currentIndex)
    {
      imageSrcs := imageSrcs[k := ErrorPlaceholder];
    }

    /** What the page currently renders. */
    function Render(): PageView
      reads this
      requires Valid()
    {
      RenderPage(currentIndex, imageSrcs)
    }
  }
}
