/** The resource carousel: a fixed list of resources split into slides of three,
    one current slide index changed by next, previous and jump-to, and the counts
    and controls derived from them. */
module Carousel {
  import opened Resources
  import opened Strings
  import Card

  /** How many cards one slide holds. */
  const ITEMS_PER_SLIDE: nat := 3

  function Min(a: int, b: int): int {
    if a <= b then a else b
  }

  /** `Math.ceil(resources.length / 3)`, as integer ceiling division. */
  function TotalSlides(resources: seq<Resource>): (total: nat)
    ensures |resources| <= ITEMS_PER_SLIDE * total < |resources| + ITEMS_PER_SLIDE
    ensures total == 0 <==> |resources| == 0
  {
    (|resources| + ITEMS_PER_SLIDE - 1) / ITEMS_PER_SLIDE
  }

  /** The carousel renders at all only when it has resources, that is, when it has a slide. */
  function Renders(resources: seq<Resource>): (b: bool)
    ensures b <==> TotalSlides(resources) > 0
  {
    |resources| != 0
  }

  /** `nextSlide`'s updater, `(prev + 1) % totalSlides`. The operands are never negative, where
      JavaScript's `%` and Dafny's agree. */
  function NextIndex(p: nat, total: nat): (r: nat)
    requires total > 0
    ensures r < total
    ensures p + 1 < total ==> r == p + 1
    ensures p + 1 == total ==> r == 0
  {
    (p + 1) % total
  }

  /** `prevSlide`'s updater, `(prev - 1 + totalSlides) % totalSlides`. */
  function PrevIndex(p: nat, total: nat): (r: nat)
    requires total > 0
    ensures r < total
    ensures 0 < p <= total ==> r == p - 1
    ensures p == 0 ==> r == total - 1
  {
    (p - 1 + total) % total
  }

  /** The previous-button is disabled on the first slide: exactly where `prevSlide` would wrap
      round instead of stepping back. */
  function PrevDisabled(p: nat): (b: bool)
    ensures forall total :: p < total ==> (b <==> PrevIndex(p, total) >= p)
  {
    p == 0
  }

  /** The next-button is disabled on the last slide: exactly where `nextSlide` would wrap round
      instead of stepping forward. */
  function NextDisabled(p: nat, total: nat): (b: bool)
    ensures p < total ==> (b <==> NextIndex(p, total) <= p)
  {
    p == total - 1
  }

  /** The navigation buttons and the indicators are rendered only for more than one slide,
      that is, for more resources than one slide holds. */
  function ShowsNavigation(resources: seq<Resource>): (b: bool)
    ensures b <==> |resources| > ITEMS_PER_SLIDE
  {
    TotalSlides(resources) > 1
  }

  /** The slide indices the indicator buttons jump to, one button per slide, in order. */
  function Indicators(resources: seq<Resource>): (r: seq<nat>)
    ensures |r| == if ShowsNavigation(resources) then TotalSlides(resources) else 0
    ensures forall k :: 0 <= k < |r| ==> r[k] == k < TotalSlides(resources)
  {
    if ShowsNavigation(resources) then seq(TotalSlides(resources), k => k) else []
  }

  /** `resources.slice(s * 3, (s + 1) * 3)`; JavaScript clamps both ends to the length. */
  function SlideItems(resources: seq<Resource>, s: nat): (r: seq<Resource>)
    ensures |r| <= ITEMS_PER_SLIDE
    ensures s < TotalSlides(resources) <==> |r| > 0
    ensures ITEMS_PER_SLIDE * s <= |resources| ==> |r| == Min(ITEMS_PER_SLIDE, |resources| - ITEMS_PER_SLIDE * s)
    ensures forall i :: 0 <= i < |r| ==> ITEMS_PER_SLIDE * s + i < |resources| && r[i] == resources[ITEMS_PER_SLIDE * s + i]
  {
    var lo := Min(ITEMS_PER_SLIDE * s, |resources|);
    var hi := Min(ITEMS_PER_SLIDE * (s + 1), |resources|);
    resources[lo..hi]
  }

  /** The number of empty placeholder cells that pad slide `s` to a full row. */
  function PlaceholderCount(resources: seq<Resource>, s: nat): (r: nat)
    ensures |SlideItems(resources, s)| + r == ITEMS_PER_SLIDE
    ensures r == 0 <==> |SlideItems(resources, s)| == ITEMS_PER_SLIDE
  {
    var k := |SlideItems(resources, s)|;
    if k < ITEMS_PER_SLIDE then ITEMS_PER_SLIDE - k else 0
  }

  /** One grid cell of a slide: a card for a resource, or an empty, non-interactive placeholder. */
  datatype Cell = Item(resource: Resource) | Placeholder

  /** The cells of slide `s`: its resources in order, then the placeholders. */
  function SlideCells(resources: seq<Resource>, s: nat): (cells: seq<Cell>)
    ensures |cells| == ITEMS_PER_SLIDE
    ensures forall i :: 0 <= i < |cells| ==>
              (cells[i].Item? <==> i < |SlideItems(resources, s)|)
              && (cells[i].Item? ==> cells[i].resource == SlideItems(resources, s)[i])
  {
    var items := SlideItems(resources, s);
    seq(|items|, i requires 0 <= i < |items| => Item(items[i]))
      + seq(PlaceholderCount(resources, s), _ => Placeholder)
  }

  /** The slides, one per index `0 .. totalSlides - 1`. */
  function Slides(resources: seq<Resource>): (slides: seq<seq<Resource>>)
    ensures |slides| == TotalSlides(resources)
    ensures forall s :: 0 <= s < |slides| ==> slides[s] == SlideItems(resources, s)
  {
    seq(TotalSlides(resources), s requires 0 <= s => SlideItems(resources, s))
  }

  /** The concatenation of a sequence of slides. */
  function Flatten(slides: seq<seq<Resource>>): seq<Resource>
    decreases |slides|
  {
    if slides == [] then [] else Flatten(slides[..|slides| - 1]) + slides[|slides| - 1]
  }

  /** The first `k` slides together hold exactly the first `3k` resources (or all of them). */
  lemma {:induction false} FlattenPrefix(resources: seq<Resource>, k: nat)
    requires k <= TotalSlides(resources)
    ensures Flatten(Slides(resources)[..k]) == resources[..Min(ITEMS_PER_SLIDE * k, |resources|)]
  {
    if k > 0 {
      var slides := Slides(resources);
      FlattenPrefix(resources, k - 1);
      assert slides[..k][..k - 1] == slides[..k - 1];
      var lo := ITEMS_PER_SLIDE * (k - 1);
      var hi := Min(ITEMS_PER_SLIDE * k, |resources|);
      assert resources[..hi] == resources[..lo] + resources[lo..hi];
    }
  }

  /** The slides partition the list: in order they give back every resource, no slide is empty,
      and every slide but the last is full. */
  lemma SlidesPartition(resources: seq<Resource>)
    ensures Flatten(Slides(resources)) == resources
    ensures forall s :: 0 <= s < |Slides(resources)| ==> |Slides(resources)[s]| > 0
    ensures forall s :: 0 <= s < |Slides(resources)| - 1 ==> |Slides(resources)[s]| == ITEMS_PER_SLIDE
  {
    var slides := Slides(resources);
    FlattenPrefix(resources, |slides|);
    assert slides[..|slides|] == slides;
  }

  /** The "Showing k of n" count: `min(s * 3 + 3, n)`, the position of the last card on slide `s`. */
  function ShownCount(resources: seq<Resource>, s: nat): (k: nat)
    ensures s < TotalSlides(resources) ==> 1 <= k <= |resources|
    ensures s < TotalSlides(resources) ==> (k == |resources| <==> s == TotalSlides(resources) - 1)
    ensures s < TotalSlides(resources) ==> k == ITEMS_PER_SLIDE * s + |SlideItems(resources, s)|
  {
    Min(ITEMS_PER_SLIDE * s + ITEMS_PER_SLIDE, |resources|)
  }

  /** `text` reads "Showing k of n resources": the fixed words in place, and between them the
      decimal digits of `k` and of `n` and nothing else. */
  predicate IsCountLine(text: string, k: nat, n: nat) {
    var m := |Decimal(k)|;
    |text| == 22 + m + |Decimal(n)| && text[..8] == "Showing " && text[8 + m..12 + m] == " of "
    && text[|text| - 10..] == " resources"
    && IsDigits(text[8..8 + m]) && DigitsValue(text[8..8 + m]) == k
    && IsDigits(text[12 + m..|text| - 10]) && DigitsValue(text[12 + m..|text| - 10]) == n
  }

  /** "Showing k of n resources". Reading the two numbers back off the text gives `k` and `n`. */
  function CountLine(k: nat, n: nat): (text: string)
    ensures IsCountLine(text, k, n)
  {
    DecimalRoundTrip(k);
    DecimalRoundTrip(n);
    var text := "Showing " + Decimal(k) + " of " + Decimal(n) + " resources";
    CountLineParts(Decimal(k), Decimal(n));
    CountLineReads(text, Decimal(k), Decimal(n), k, n);
    text
  }

  /** The count line under slide `s`: the numbers read back off it are the shown count and the
      number of resources. */
  function ShowingText(resources: seq<Resource>, s: nat): (text: string)
    ensures IsCountLine(text, ShownCount(resources, s), |resources|)
  {
    CountLine(ShownCount(resources, s), |resources|)
  }

  /** The fixed words and the two numbers of a count line can be cut back out of it. */
  lemma CountLineParts(a: string, b: string)
    ensures var t := "Showing " + a + " of " + b + " resources";
      |t| == 22 + |a| + |b| && t[..8] == "Showing " && t[8..8 + |a|] == a && t[8 + |a|..12 + |a|] == " of "
      && t[12 + |a|..|t| - 10] == b && t[|t| - 10..] == " resources"
  {
    FiveSlices("Showing ", a, " of ", b, " resources");
  }

  /** A text laid out as a count line around the digit strings of `k` and `n` reads as the count
      line of `k` and `n`. */
  lemma CountLineReads(t: string, a: string, b: string, k: nat, n: nat)
    requires |a| == |Decimal(k)| && IsDigits(a) && DigitsValue(a) == k
    requires |b| == |Decimal(n)| && IsDigits(b) && DigitsValue(b) == n
    requires |t| == 22 + |a| + |b| && t[..8] == "Showing " && t[8..8 + |a|] == a && t[8 + |a|..12 + |a|] == " of "
    requires t[12 + |a|..|t| - 10] == b && t[|t| - 10..] == " resources"
    ensures IsCountLine(t, k, n)
  {
    var m := |Decimal(k)|;
    assert m == |a|;
    assert |t| == 22 + m + |Decimal(n)|;
    assert t[8..8 + m] == a;
    assert t[12 + m..|t| - 10] == b;
    assert IsDigits(t[8..8 + m]) && DigitsValue(t[8..8 + m]) == k;
    assert IsDigits(t[12 + m..|t| - 10]) && DigitsValue(t[12 + m..|t| - 10]) == n;
  }

  /** The five pieces of a concatenation can be cut back out of it. */
  lemma FiveSlices(a: string, b: string, c: string, d: string, e: string)
    ensures var t := a + b + c + d + e;
      t[..|a|] == a && t[|a|..|a| + |b|] == b && t[|a| + |b|..|a| + |b| + |c|] == c
      && t[|a| + |b| + |c|..|t| - |e|] == d && t[|t| - |e|..] == e
  {
    var ab := a + b;
    var abc := ab + c;
    var abcd := abc + d;
    assert ab[..|a|] == a && ab[|a|..] == b;
    assert abc[..|ab|] == ab && abc[|ab|..] == c;
    assert abcd[..|abc|] == abc && abcd[|abc|..] == d;
    var t := abcd + e;
    assert t[..|abcd|] == abcd && t[|abcd|..] == e;
  }

  /** Next and previous undo each other on every valid slide. */
  lemma NextPrevInverse(p: nat, total: nat)
    requires p < total
    ensures PrevIndex(NextIndex(p, total), total) == p
    ensures NextIndex(PrevIndex(p, total), total) == p
  {
  }

  /** `nextSlide` applied `k` times. */
  function NextIterate(p: nat, k: nat, total: nat): nat
    requires total > 0
    decreases k
  {
    if k == 0 then p else NextIterate(NextIndex(p, total), k - 1, total)
  }

  lemma {:induction false} NextIterateAdd(p: nat, a: nat, b: nat, total: nat)
    requires total > 0
    ensures NextIterate(p, a + b, total) == NextIterate(NextIterate(p, a, total), b, total)
    decreases a
  {
    if a > 0 {
      NextIterateAdd(NextIndex(p, total), a - 1, b, total);
    }
  }

  /** Without reaching the last slide, `k` steps forward just add `k`. */
  lemma {:induction false} NextIterateNoWrap(p: nat, k: nat, total: nat)
    requires p + k < total
    ensures NextIterate(p, k, total) == p + k
    decreases k
  {
    if k > 0 {
      NextIterateNoWrap(p + 1, k - 1, total);
    }
  }

  /** Going forward `totalSlides` times comes back to the slide one started on. */
  lemma NextCycle(p: nat, total: nat)
    requires p < total
    ensures NextIterate(p, total, total) == p
  {
    var toLast := total - 1 - p;
    NextIterateNoWrap(p, toLast, total);
    NextIterateAdd(p, toLast, 1, total);
    NextIterateAdd(p, toLast + 1, p, total);
    assert NextIterate(total - 1, 1, total) == NextIterate(0, 0, total) == 0;
    NextIterateNoWrap(0, p, total);
  }

  /** With the button guards respected the transitions never wrap: an enabled next-button moves
      one slide forward and an enabled previous-button one slide back. */
  lemma GuardedNoWrap(p: nat, total: nat)
    requires p < total
    ensures !NextDisabled(p, total) ==> NextIndex(p, total) == p + 1
    ensures !PrevDisabled(p) ==> PrevIndex(p, total) == p - 1
  {
  }

  /** An empty list renders nothing; one of one to three resources has a single slide and no
      navigation. */
  lemma EmptyAndSingleSlide(resources: seq<Resource>)
    ensures !Renders(resources) <==> TotalSlides(resources) == 0
    ensures 0 < |resources| <= ITEMS_PER_SLIDE ==> TotalSlides(resources) == 1 && !ShowsNavigation(resources)
  {
  }

  /** Seven resources: three slides, showing 3, 6 and 7 of 7; the last reads "Showing 7 of 7 resources". */
  lemma SevenResources(resources: seq<Resource>)
    requires |resources| == 7
    ensures TotalSlides(resources) == 3
    ensures ShownCount(resources, 0) == 3 && ShownCount(resources, 1) == 6 && ShownCount(resources, 2) == 7
    ensures ShowingText(resources, 2) == "Showing 7 of 7 resources"
  {
  }

  /** Five resources: two slides, the second with two cards and one placeholder, showing 5 of 5. */
  lemma FiveResources(resources: seq<Resource>)
    requires |resources| == 5
    ensures TotalSlides(resources) == 2
    ensures |SlideItems(resources, 0)| == 3 && |SlideItems(resources, 1)| == 2
    ensures PlaceholderCount(resources, 1) == 1 && ShownCount(resources, 1) == 5
  {
  }

  /** The carousel's colour map, in the field order the carousel declares it: one entry per
      palette colour, each with its own bundle. */
  function ColorMap(): (m: map<string, Card.AccentClasses>)
    ensures m.Keys == {"violet", "purple", "indigo"}
    ensures forall c, d :: c in m && d in m && c != d ==> m[c] != m[d]
  {
    map[
      "violet" := Card.AccentClasses(bg := "bg-violet-600", hover := "hover:bg-violet-700", text := "text-violet-600",
                                     border := "border-violet-200", bgLight := "bg-violet-50"),
      "purple" := Card.AccentClasses(bg := "bg-purple-600", hover := "hover:bg-purple-700", text := "text-purple-600",
                                     border := "border-purple-200", bgLight := "bg-purple-50"),
      "indigo" := Card.AccentClasses(bg := "bg-indigo-600", hover := "hover:bg-indigo-700", text := "text-indigo-600",
                                     border := "border-indigo-200", bgLight := "bg-indigo-50")
    ]
  }

  /** The carousel's `getAccentClasses`. */
  function GetAccentClasses(color: string): (r: Card.Option<Card.AccentClasses>)
    ensures r.Some? <==> color == "violet" || color == "purple" || color == "indigo"
  {
    if color in ColorMap() then Card.Some(ColorMap()[color]) else Card.None
  }

  /** The carousel and its cards style an accent colour with the same classes. */
  lemma AccentLookupsAgree(color: string)
    ensures GetAccentClasses(color) == Card.GetAccentClasses(color)
  {
  }

  /** The cards of slide `s`: one per resource on the slide, in order, each titled and labelled
      from its resource and styled with the carousel's own accent class bundle. */
  function SlideCardViews(resources: seq<Resource>, s: nat, accentColor: Accent): (cards: seq<Card.CardView>)
    ensures |cards| == |SlideItems(resources, s)|
    ensures s < TotalSlides(resources) <==> 0 < |cards|
    ensures forall i :: 0 <= i < |cards| ==> Card.Some(cards[i].accent) == GetAccentClasses(accentColor.Name())
    ensures forall i :: 0 <= i < |cards| ==>
              ITEMS_PER_SLIDE * s + i < |resources|
              && cards[i].title == resources[ITEMS_PER_SLIDE * s + i].title
              && cards[i].actionLabel == Card.ActionLabel(resources[ITEMS_PER_SLIDE * s + i].kind.Name())
    ensures forall i :: 0 <= i < |cards| ==>
              ITEMS_PER_SLIDE * s + i < |resources| && cards[i] == Card.Render(resources[ITEMS_PER_SLIDE * s + i], accentColor)
  {
    AccentLookupsAgree(accentColor.Name());
    var items := SlideItems(resources, s);
    assert forall i :: 0 <= i < |items| ==> items[i] == resources[ITEMS_PER_SLIDE * s + i];
    Card.RenderAll(items, accentColor)
  }

  /** One carousel instance. The resource list is fixed for the instance's lifetime; the only
      state is the index of the current slide. */
  class ResourceCarousel {
    const title: string
    const subtitle: string
    const resources: seq<Resource>
    const accentColor: Accent
    var currentSlide: nat

    /** The current slide is a slide of the list (or 0 when there are none). */
    ghost predicate Valid()
      reads this
    {
      currentSlide == 0 || currentSlide < TotalSlides(resources)
    }

    /** Mounting starts on the first slide. */
    constructor (title: string, subtitle: string, resources: seq<Resource>, accentColor: Accent)
      ensures Valid() && currentSlide == 0
      ensures this.title == title && this.subtitle == subtitle
      ensures this.resources == resources && this.accentColor == accentColor
    {
      this.title := title;
      this.subtitle := subtitle;
      this.resources := resources;
      this.accentColor := accentColor;
      currentSlide := 0;
    }

    /** `nextSlide`: forward one slide, wrapping from the last to the first. */
    method Next()
      requires Valid() && Renders(resources)
      modifies this
      ensures Valid() && currentSlide < TotalSlides(resources)
      ensures currentSlide == NextIndex(old(currentSlide), TotalSlides(resources))
    {
      currentSlide := (currentSlide + 1) % TotalSlides(resources);
    }

    /** `prevSlide`: back one slide, wrapping from the first to the last. */
    method Prev()
      requires Valid() && Renders(resources)
      modifies this
      ensures Valid() && currentSlide < TotalSlides(resources)
      ensures currentSlide == PrevIndex(old(currentSlide), TotalSlides(resources))
    {
      currentSlide := (currentSlide - 1 + TotalSlides(resources)) % TotalSlides(resources);
    }

    /** `goToSlide`: jump to slide `index`; its callers pass only indices of existing slides. */
    method GoTo(index: nat)
      requires Valid() && index < TotalSlides(resources)
      modifies this
      ensures Valid() && currentSlide == index
    {
      currentSlide := index;
    }

    /** A click on the next-button, which exists only with navigation and does nothing while disabled. */
    method ClickNext()
      requires Valid() && ShowsNavigation(resources)
      modifies this
      ensures Valid()
      ensures currentSlide == if old(currentSlide) == TotalSlides(resources) - 1 then old(currentSlide)
                             else old(currentSlide) + 1
    {
      if !NextDisabled(currentSlide, TotalSlides(resources)) {
        Next();
      }
    }

    /** A click on the previous-button, which does nothing while disabled. */
    method ClickPrev()
      requires Valid() && ShowsNavigation(resources)
      modifies this
      ensures Valid()
      ensures currentSlide == if old(currentSlide) == 0 then 0 else old(currentSlide) - 1
    {
      if !PrevDisabled(currentSlide) {
        Prev();
      }
    }

    /** A click on the `k`-th indicator. */
    method ClickIndicator(k: nat)
      requires Valid() && k < |Indicators(resources)|
      modifies this
      ensures Valid() && currentSlide == k
    {
      GoTo(Indicators(resources)[k]);
    }

    /** The indicator of slide `i` is highlighted when it is the current slide; a highlighted
        indicator always belongs to an existing slide. */
    function IndicatorActive(i: nat): (b: bool)
      reads this
      requires Valid()
      ensures b && Renders(resources) ==> i < TotalSlides(resources)
    {
      i == currentSlide
    }

    /** Exactly one indicator is highlighted whenever indicators are shown. */
    lemma OneActiveIndicator()
      requires Valid() && ShowsNavigation(resources)
      ensures currentSlide in Indicators(resources)
      ensures forall k :: 0 <= k < |Indicators(resources)| ==>
                (IndicatorActive(Indicators(resources)[k]) <==> k == currentSlide)
    {
      assert Indicators(resources)[currentSlide] == currentSlide;
    }

    /** The resources on the current slide. */
    function Visible(): (r: seq<Resource>)
      reads this
      requires Valid()
      ensures Renders(resources) ==> 0 < |r| <= ITEMS_PER_SLIDE
      ensures Renders(resources) ==> |r| == Min(ITEMS_PER_SLIDE, |resources| - ITEMS_PER_SLIDE * currentSlide)
      ensures forall i :: 0 <= i < |r| ==>
                ITEMS_PER_SLIDE * currentSlide + i < |resources| && r[i] == resources[ITEMS_PER_SLIDE * currentSlide + i]
    {
      SlideItems(resources, currentSlide)
    }

    /** The count shown under the slides. */
    function Shown(): (k: nat)
      reads this
      requires Valid()
      ensures Renders(resources) ==> 1 <= k <= |resources|
      ensures Renders(resources) ==> (k == |resources| <==> currentSlide == TotalSlides(resources) - 1)
      ensures Renders(resources) ==> k == ITEMS_PER_SLIDE * currentSlide + |Visible()|
    {
      ShownCount(resources, currentSlide)
    }

    /** The cards of the current slide: one per resource on it, in order, each styled with the
        carousel's own accent class bundle. */
    function VisibleCards(): (cards: seq<Card.CardView>)
      reads this
      requires Valid()
      ensures |cards| == |Visible()|
      ensures Renders(resources) ==> 0 < |cards| <= ITEMS_PER_SLIDE
      ensures forall i :: 0 <= i < |cards| ==> Card.Some(cards[i].accent) == GetAccentClasses(accentColor.Name())
      ensures forall i :: 0 <= i < |cards| ==>
                ITEMS_PER_SLIDE * currentSlide + i < |resources|
                && cards[i].title == resources[ITEMS_PER_SLIDE * currentSlide + i].title
                && cards[i].actionLabel == Card.ActionLabel(resources[ITEMS_PER_SLIDE * currentSlide + i].kind.Name())
      ensures forall i :: 0 <= i < |cards| ==>
                ITEMS_PER_SLIDE * currentSlide + i < |resources|
                && cards[i] == Card.Render(resources[ITEMS_PER_SLIDE * currentSlide + i], accentColor)
    {
      SlideCardViews(resources, currentSlide, accentColor)
    }
  }
}
