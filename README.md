# Resource carousel and card, modelled in Dafny

This project models the two display components of a small catalogue of learning
resources (videos, audio, PDFs):

- the **resource carousel** splits a fixed list of resources into slides of three
  cards. It keeps the index of the current slide and moves it with next, previous and
  jump-to controls. It shows "Showing k of n resources" and pads a short last slide
  with empty placeholders;
- the **resource card** picks an icon and an action label by resource type, and a colour
  class by difficulty. It shows at most three tags plus a "+N more" indicator, joins
  the languages with ", ", and looks up the class bundle of its accent colour.

Files:

- `resources.dfy` (module `Resources`): the `Resource` record and the closed
  enumerations for type, difficulty and accent colour. Each has a `Name()` that gives
  the string tag the components compare against.
- `strings.dfy` (module `Strings`): `Array.prototype.join` (`Join`) and the decimal
  rendering of a non-negative integer (`Decimal`), with its inverse `DigitsValue`.
- `card.dfy` (module `Card`): the card's lookups, tag truncation and the whole card view
  (`Render`).
- `carousel.dfy` (module `Carousel`): the pure pagination functions over
  `seq<Resource>` (`TotalSlides`, `SlideItems`, `PlaceholderCount`, `SlideCells`,
  `Slides`, `ShownCount`, `Indicators`, `SlideCardViews`) and the transition functions `NextIndex` and
  `PrevIndex`. The class `ResourceCarousel` holds the state: `currentSlide` is a mutable
  field, and the resource list, title, subtitle and accent are constants. Its methods
  `Next`, `Prev` and `GoTo` update `currentSlide`. `ClickNext`, `ClickPrev` and
  `ClickIndicator` model a click on a control, including a disabled button doing nothing.

The card's lookups (`IconFor`, `ActionLabel`, `DifficultyClass`, `GetAccentClasses`)
take the raw string the component compares, so their fall-through branches are modelled.
Lemmas connect them to the declared enumerations. `Math.ceil(n / 3)` is the integer
ceiling division `(n + 2) / 3`. JavaScript's `%` truncates toward zero and Dafny's is
Euclidean. They agree here because both operands of every `%` in the carousel are
non-negative.

`type` is declared as `'video' | 'audio' | 'pdf'` (src/types/Resource.ts:5). The action
label's last branch (src/components/ResourceCard.tsx:139) also covers every other value,
and `ActionLabel` states that.

## Model

| member | source | states |
|---|---|---|
| Strings.Decimal | src/components/ResourceCarousel.tsx:159 | a number renders as at least one digit, with no leading zero except for 0 itself, and as one digit exactly when it is below 10 |
| Strings.DecimalRoundTrip | src/components/ResourceCarousel.tsx:159 | reading the rendered digits back gives the number |
| Strings.DecimalInjective | src/components/ResourceCarousel.tsx:159 | two numbers render the same exactly when they are equal |
| Strings.Join | src/components/ResourceCard.tsx:118 | a non-empty join starts with the first element and ends with the last |
| Strings.JoinShort | src/components/ResourceCard.tsx:118 | joining no strings gives "", joining one gives it unchanged |
| Strings.JoinSnoc | src/components/ResourceCard.tsx:118 | appending an element to a non-empty list appends the separator and that element to the joined string |
| Strings.JoinLength | src/components/ResourceCard.tsx:118 | the joined length is the sum of the element lengths plus one separator per gap |
| Card.IconFor | src/components/ResourceCard.tsx:11-22 | Play exactly for "video", Volume2 exactly for "audio", Download exactly for "pdf", ExternalLink for any other value |
| Card.ActionLabel | src/components/ResourceCard.tsx:137-139 | "Watch Now" exactly for video, "Listen Now" exactly for audio, "Download PDF" for every other value |
| Card.DifficultyClass | src/components/ResourceCard.tsx:122-125 | green exactly for beginner, yellow exactly for intermediate, red for every other value |
| Card.ColorMap | src/components/ResourceCard.tsx:25-47 | the map's keys are exactly violet, purple and indigo, and distinct keys hold distinct bundles |
| Card.GetAccentClasses | src/components/ResourceCard.tsx:24-49 | the lookup is defined exactly for violet, purple and indigo; every other string gives no bundle |
| Card.MoreLabel | src/components/ResourceCard.tsx:105 | the indicator is "+", the count's decimal digits and " more", and nothing else (its length is the digit count plus six); reading the digits back gives the count |
| Card.TagLabel | src/components/ResourceCard.tsx:100 | a tag label is "#" followed by the tag unchanged |
| Card.LanguagesLine | src/components/ResourceCard.tsx:118 | no languages give ""; otherwise the line starts with the first language and ends with the last |
| Card.ShownTags | src/components/ResourceCard.tsx:95 | the shown tags are a prefix of the tags, of length min(3, number of tags) |
| Card.HiddenTagCount | src/components/ResourceCard.tsx:103-106 | the "+N more" indicator is present exactly when there are more than 3 tags, and then shown tags plus N is the number of tags |
| Card.Render | src/components/ResourceCard.tsx:51-141 | the badge and the button show the same icon, the one the type's tag selects, never the generic one; one "#tag" label for each shown tag, in order; the indicator reads "+N more" for the hidden count and appears exactly when tags are hidden; the action label, difficulty class, languages line and accent bundle are those of the lookups; the text fields are the resource's own |
| Card.DeclaredTypeDisplay | src/components/ResourceCard.tsx:11-22 | video, audio and pdf get Play/"Watch Now", Volume2/"Listen Now" and Download/"Download PDF" |
| Card.DeclaredDifficultyClass | src/components/ResourceCard.tsx:122-125 | beginner, intermediate and advanced get green, yellow and red |
| Card.AccentLookupTotal | src/components/ResourceCard.tsx:24-51 | the lookup is defined for every palette colour, and distinct colours get distinct bundles |
| Card.TagsAccounted | src/components/ResourceCard.tsx:95-106 | shown tags plus the hidden count equal the number of tags |
| Card.FiveTags | src/components/ResourceCard.tsx:95-106 | five tags show the first three in order and the indicator "+2 more" |
| Card.LanguagesLineShape | src/components/ResourceCard.tsx:118 | no languages show "", one shows unchanged, and appending one adds ", " and that language at the end |
| Carousel.Renders | src/components/ResourceCarousel.tsx:60 | the carousel renders exactly when it has at least one slide |
| Carousel.PrevDisabled | src/components/ResourceCarousel.tsx:82 | the previous-button is disabled exactly where the raw previous transition would wrap round |
| Carousel.NextDisabled | src/components/ResourceCarousel.tsx:93 | the next-button is disabled exactly where the raw next transition would wrap round |
| Carousel.ShowsNavigation | src/components/ResourceCarousel.tsx:78 | buttons and indicators are rendered exactly when there are more than 3 resources |
| Carousel.CountLine | src/components/ResourceCarousel.tsx:159 | "Showing k of n resources" and nothing else (its length is 22 plus the two digit counts): reading the two numbers back off the text gives k and n |
| Carousel.ShowingText | src/components/ResourceCarousel.tsx:159 | the count line of a slide, of exactly the length of its fixed words and two numbers: the numbers read back off it are the shown count and the number of resources |
| Carousel.ColorMap | src/components/ResourceCarousel.tsx:32-54 | the map's keys are exactly violet, purple and indigo, and distinct keys hold distinct bundles |
| Carousel.TotalSlides | src/components/ResourceCarousel.tsx:16-17 | the slide count is the ceiling of n/3 (3·total covers n with less than 3 to spare), and is 0 exactly when n is 0 |
| Carousel.NextIndex | src/components/ResourceCarousel.tsx:19-21 | the next index is a valid slide: one more, or 0 after the last slide |
| Carousel.PrevIndex | src/components/ResourceCarousel.tsx:23-25 | the previous index is a valid slide: one less, or the last slide from slide 0 |
| Carousel.Indicators | src/components/ResourceCarousel.tsx:140-145 | indicators exist only for more than one slide, and then offer exactly the indices 0 .. totalSlides-1 in order |
| Carousel.SlideItems | src/components/ResourceCarousel.tsx:115-116 | slide s holds resources 3s .. min(3s+3, n) in order, at most 3, and is non-empty exactly for the existing slides |
| Carousel.PlaceholderCount | src/components/ResourceCarousel.tsx:123-127 | items plus placeholders always make 3, and there are no placeholders exactly on a full slide |
| Carousel.SlideCells | src/components/ResourceCarousel.tsx:112-131 | every slide renders exactly 3 cells, the slide's resources in order followed only by placeholders |
| Carousel.Slides | src/components/ResourceCarousel.tsx:112 | one slide per index 0 .. totalSlides-1 |
| Carousel.FlattenPrefix | src/components/ResourceCarousel.tsx:112-116 | the first k slides together hold exactly the first min(3k, n) resources |
| Carousel.SlidesPartition | src/components/ResourceCarousel.tsx:112-116 | the slides concatenated give back the list in order, none is empty, and all but the last hold 3 |
| Carousel.ShownCount | src/components/ResourceCarousel.tsx:159 | on a valid slide the count lies in [1, n], equals n exactly on the last slide, and is the number of resources up to the end of the current slide |
| Carousel.NextPrevInverse | src/components/ResourceCarousel.tsx:19-25 | previous undoes next and next undoes previous on every valid slide |
| Carousel.NextIterateAdd | src/components/ResourceCarousel.tsx:19-21 | a+b steps forward are a steps followed by b steps |
| Carousel.NextIterateNoWrap | src/components/ResourceCarousel.tsx:19-21 | k steps forward that do not pass the last slide add k |
| Carousel.NextCycle | src/components/ResourceCarousel.tsx:19-21 | totalSlides steps forward return to the starting slide |
| Carousel.GuardedNoWrap | src/components/ResourceCarousel.tsx:80-101 | with the button guards respected, next yields p+1 and previous yields p-1 |
| Carousel.EmptyAndSingleSlide | src/components/ResourceCarousel.tsx:60-78 | an empty list renders nothing and has no slides; one to three resources make one slide and no navigation |
| Carousel.SevenResources | src/components/ResourceCarousel.tsx:159 | seven resources make three slides showing 3, 6 and 7, and the last reads "Showing 7 of 7 resources" |
| Carousel.FiveResources | src/components/ResourceCarousel.tsx:112-131 | five resources make two slides of 3 and 2 items, one placeholder, and the last shows 5 |
| Carousel.GetAccentClasses | src/components/ResourceCarousel.tsx:31-56 | the carousel's colour map has an entry exactly for violet, purple and indigo |
| Carousel.AccentLookupsAgree | src/components/ResourceCarousel.tsx:31-56 | for every key, the carousel's lookup and the card's give the same bundle, despite the different field order |
| Carousel.SlideCardViews | src/components/ResourceCarousel.tsx:115-121 | slide s renders one card per resource on it, and only an existing slide has cards; card i is the full card of resource 3s+i (`Card.Render` under the carousel's accent), so its title, label, tags, languages and difficulty all come from that resource, and it is styled with the carousel's own accent bundle |
| Carousel.ResourceCarousel.constructor | src/components/ResourceCarousel.tsx:14-15 | a new carousel starts on slide 0 with the given list and accent |
| Carousel.ResourceCarousel.Next | src/components/ResourceCarousel.tsx:19-21 | the current slide becomes NextIndex of the old one and stays valid |
| Carousel.ResourceCarousel.Prev | src/components/ResourceCarousel.tsx:23-25 | the current slide becomes PrevIndex of the old one and stays valid |
| Carousel.ResourceCarousel.GoTo | src/components/ResourceCarousel.tsx:27-29 | the current slide becomes the given index and nothing else changes |
| Carousel.ResourceCarousel.ClickNext | src/components/ResourceCarousel.tsx:91-101 | a click moves one slide forward, and does nothing on the last slide, where the button is disabled |
| Carousel.ResourceCarousel.ClickPrev | src/components/ResourceCarousel.tsx:80-90 | a click moves one slide back, and does nothing on slide 0, where the button is disabled |
| Carousel.ResourceCarousel.ClickIndicator | src/components/ResourceCarousel.tsx:142-145 | clicking the k-th indicator makes slide k current |
| Carousel.ResourceCarousel.IndicatorActive | src/components/ResourceCarousel.tsx:147 | a highlighted indicator always belongs to an existing slide |
| Carousel.ResourceCarousel.OneActiveIndicator | src/components/ResourceCarousel.tsx:146-150 | when indicators are shown, exactly the current slide's indicator is highlighted |
| Carousel.ResourceCarousel.Visible | src/components/ResourceCarousel.tsx:112-121 | the current slide c shows min(3, n - 3c) resources, at least one, namely resources 3c, 3c+1, ... in order |
| Carousel.ResourceCarousel.Shown | src/components/ResourceCarousel.tsx:159 | the shown count is 3c plus the number of visible resources; it lies in [1, n] and is n exactly on the last slide |
| Carousel.ResourceCarousel.VisibleCards | src/components/ResourceCarousel.tsx:115-121 | exactly one card per visible resource (as many cards as visible resources), in order; card i is the full card of resource 3c+i (`Card.Render` under the carousel's accent) and is styled with the carousel's own accent bundle |

## Left out

- JSX layout, CSS layout classes, hover and transition classes and the `translateX` slide
  animation are presentation only. Icons are tags of an enumeration, not components.
- React hooks are not modelled: `useState`, re-rendering and updater closures. Setting the
  slide is a plain field assignment.
- The resource list is fixed for a carousel's lifetime. If the list prop changed, the
  component would keep `currentSlide` as it is, and that is not modelled.
- `rating` and `duration` are carried for display only. `rating` is a `real`; JavaScript's
  floating-point number formatting is not modelled.
- The optional URL fields of a resource are not part of the record, because neither
  component reads them. The action button has no click behaviour in the code.
- `Card.GetAccentClasses`: its contract does not spell out each class string; the strings
  are given only by the map literal.
- `Card.GetAccentClasses` and `Carousel.GetAccentClasses` return no bundle for every key
  outside the palette. In JavaScript, indexing an object literal also finds properties
  inherited from `Object.prototype`, such as `toString`, `constructor`, `valueOf` and
  `__proto__`, and returns a defined non-bundle value for them. No caller passes such
  a key: both components pass only their typed accent colour.
- `Carousel.ResourceCarousel.GoTo`: requires an index of an existing slide. Its only
  callers are the indicator buttons, and they pass exactly those indices.
- `Carousel.ResourceCarousel.Next` and `Carousel.ResourceCarousel.Prev`: require a non-empty
  list. With no resources the component renders nothing, so no control can call them.
- The `capitalize` CSS transform of the type badge and the difficulty text is styling.
  The model keeps the lower-case tag.
- React `key` props are not modelled, nor the uniqueness of resource ids they assume.
