/** The display rules of one resource card: icon and action label by type, tag
    truncation, difficulty colour, the languages line and the accent class lookup.
    The lookups take the string the component compares, so the fall-through
    branches for values outside the declared unions are part of the model. */
module Card {
  import opened Resources
  import opened Strings

  datatype Option<T> = None | Some(value: T)

  /** The icon components a card can show (lucide-react glyphs, named by tag). */
  datatype Icon = Play | Volume2 | Download | ExternalLink

  /** The class-name bundle of one accent colour. */
  datatype AccentClasses = AccentClasses(bg: string, hover: string, text: string, bgLight: string, border: string)

  /** How many tags a card shows before collapsing the rest. */
  const MAX_TAGS: nat := 3

  /** `getIcon`: the switch on the resource's type tag. */
  function IconFor(kind: string): (icon: Icon)
    ensures icon == Play <==> kind == "video"
    ensures icon == Volume2 <==> kind == "audio"
    ensures icon == Download <==> kind == "pdf"
  {
    match kind
    case "video" => Play
    case "audio" => Volume2
    case "pdf" => Download
    case _ => ExternalLink
  }

  /** The action button's label: a ternary chain whose last branch covers pdf and everything else. */
  function ActionLabel(kind: string): (caption: string)
    ensures caption == "Watch Now" <==> kind == "video"
    ensures caption == "Listen Now" <==> kind == "audio"
    ensures caption == "Download PDF" <==> kind != "video" && kind != "audio"
  {
    if kind == "video" then "Watch Now"
    else if kind == "audio" then "Listen Now"
    else "Download PDF"
  }

  /** The colour class of the difficulty text: a ternary chain ending in red. */
  function DifficultyClass(difficulty: string): (cls: string)
    ensures cls == "text-green-600" <==> difficulty == "beginner"
    ensures cls == "text-yellow-600" <==> difficulty == "intermediate"
    ensures cls == "text-red-600" <==> difficulty != "beginner" && difficulty != "intermediate"
  {
    if difficulty == "beginner" then "text-green-600"
    else if difficulty == "intermediate" then "text-yellow-600"
    else "text-red-600"
  }

  /** The card's colour map, in the field order the card declares it: one entry per palette
      colour, each with its own bundle. */
  function ColorMap(): (m: map<string, AccentClasses>)
    ensures m.Keys == {"violet", "purple", "indigo"}
    ensures forall c, d :: c in m && d in m && c != d ==> m[c] != m[d]
  {
    map[
      "violet" := AccentClasses(bg := "bg-violet-600", hover := "hover:bg-violet-700", text := "text-violet-600",
                                bgLight := "bg-violet-50", border := "border-violet-200"),
      "purple" := AccentClasses(bg := "bg-purple-600", hover := "hover:bg-purple-700", text := "text-purple-600",
                                bgLight := "bg-purple-50", border := "border-purple-200"),
      "indigo" := AccentClasses(bg := "bg-indigo-600", hover := "hover:bg-indigo-700", text := "text-indigo-600",
                                bgLight := "bg-indigo-50", border := "border-indigo-200")
    ]
  }

  /** `getAccentClasses`: `colorMap[color]`, undefined (None) for a key the map lacks. */
  function GetAccentClasses(color: string): (r: Option<AccentClasses>)
    ensures r.Some? <==> color == "violet" || color == "purple" || color == "indigo"
  {
    if color in ColorMap() then Some(ColorMap()[color]) else None
  }

  /** `tags.slice(0, 3)`: the tags the card shows as labels. */
  function ShownTags(tags: seq<string>): (shown: seq<string>)
    ensures |shown| == if |tags| < MAX_TAGS then |tags| else MAX_TAGS
    ensures shown <= tags
  {
    if |tags| <= MAX_TAGS then tags else tags[..MAX_TAGS]
  }

  /** The number in the "+N more" indicator, or None when the indicator is not rendered. */
  function HiddenTagCount(tags: seq<string>): (r: Option<nat>)
    ensures r.Some? <==> |tags| > MAX_TAGS
    ensures r.Some? ==> |ShownTags(tags)| + r.value == |tags|
  {
    if |tags| > MAX_TAGS then Some(|tags| - MAX_TAGS) else None
  }

  /** `text` reads "+N more" for `hidden`: a plus sign, then the decimal digits of `hidden` and
      nothing else, then " more". */
  predicate IsMoreLabel(text: string, hidden: nat) {
    |text| == |Decimal(hidden)| + 6 && text[0] == '+' && text[|text| - 5..] == " more"
    && IsDigits(text[1..|text| - 5]) && DigitsValue(text[1..|text| - 5]) == hidden
  }

  /** The text of the "+N more" indicator: a plus sign, the count in decimal, and " more".
      Reading the digits back off the label gives the count. */
  function MoreLabel(hidden: nat): (text: string)
    ensures IsMoreLabel(text, hidden)
  {
    var text := "+" + Decimal(hidden) + " more";
    DecimalRoundTrip(hidden);
    MoreLabelReads(text, Decimal(hidden), hidden);
    text
  }

  /** A text laid out as a "+N more" label around the digit string of `hidden` reads as its label. */
  lemma MoreLabelReads(text: string, digits: string, hidden: nat)
    requires text == "+" + digits + " more"
    requires |digits| == |Decimal(hidden)| && IsDigits(digits) && DigitsValue(digits) == hidden
    ensures IsMoreLabel(text, hidden)
  {
    assert text[1..|digits| + 1] == digits;
  }

  /** The text of one tag label: the tag behind a hash sign. */
  function TagLabel(tag: string): (text: string)
    ensures |text| == |tag| + 1 && text[0] == '#' && text[1..] == tag
  {
    "#" + tag
  }

  /** The languages line: the list joined with ", ". It is empty for no languages, and otherwise
      starts with the first language and ends with the last. */
  function LanguagesLine(languages: seq<string>): (line: string)
    ensures languages == [] ==> line == ""
    ensures languages != [] ==> |languages[0]| <= |line| && line[..|languages[0]|] == languages[0]
    ensures languages != [] ==> |languages[|languages| - 1]| <= |line|
                                && line[|line| - |languages[|languages| - 1]|..] == languages[|languages| - 1]
  {
    Join(languages, ", ")
  }

  /** The icon of a declared type: the one the switch selects, never the generic fallback. */
  function TypeIcon(kind: ResourceType): (icon: Icon)
    ensures icon == IconFor(kind.Name()) != ExternalLink
  {
    DeclaredTypeDisplay(kind);
    IconFor(kind.Name())
  }

  /** The bundle of a palette colour, which the lookup always finds. */
  function PaletteClasses(color: Accent): (classes: AccentClasses)
    ensures Some(classes) == GetAccentClasses(color.Name())
  {
    AccentLookupTotal(color, color);
    GetAccentClasses(color.Name()).value
  }

  /** The tag labels, one "#tag" per shown tag, in order. */
  function TagLabels(tags: seq<string>): (labels: seq<string>)
    ensures |labels| == |ShownTags(tags)| <= |tags|
    ensures forall i :: 0 <= i < |labels| ==> labels[i] == "#" + tags[i]
  {
    var shown := ShownTags(tags);
    seq(|shown|, i requires 0 <= i < |shown| => TagLabel(shown[i]))
  }

  /** The "+N more" indicator, rendered exactly when some tags are hidden, N being their number. */
  function MoreIndicator(tags: seq<string>): (indicator: Option<string>)
    ensures indicator.Some? <==> |tags| > MAX_TAGS
    ensures indicator.Some? ==> indicator.value == MoreLabel(|tags| - MAX_TAGS)
  {
    var hidden := HiddenTagCount(tags);
    if hidden.Some? then Some(MoreLabel(hidden.value)) else None
  }

  /** What a card renders, leaving out layout: the two places the icon appears, the tag
      labels and the optional indicator, the metadata lines and the action label. */
  datatype CardView = CardView(
    badgeIcon: Icon,
    badgeText: string,
    title: string,
    description: string,
    duration: string,
    rating: real,
    tagLabels: seq<string>,
    moreIndicator: Option<string>,
    category: string,
    languages: string,
    difficultyText: string,
    difficultyClass: string,
    buttonIcon: Icon,
    actionLabel: string,
    accent: AccentClasses)

  /** `ResourceCard`: the card for one resource under one accent colour. */
  function Render(resource: Resource, accentColor: Accent): (v: CardView)
    ensures v.badgeIcon == v.buttonIcon == IconFor(resource.kind.Name()) != ExternalLink
    ensures |v.tagLabels| == |ShownTags(resource.tags)| <= |resource.tags|
    ensures forall i :: 0 <= i < |v.tagLabels| ==> v.tagLabels[i] == "#" + resource.tags[i]
    ensures v.moreIndicator.Some? <==> |resource.tags| > MAX_TAGS
    ensures v.moreIndicator.Some? ==> v.moreIndicator.value == MoreLabel(|resource.tags| - MAX_TAGS)
    ensures v.badgeText == resource.kind.Name() && v.difficultyText == resource.difficulty.Name()
    ensures v.actionLabel == ActionLabel(resource.kind.Name())
    ensures v.difficultyClass == DifficultyClass(resource.difficulty.Name())
    ensures v.languages == LanguagesLine(resource.languages)
    ensures Some(v.accent) == GetAccentClasses(accentColor.Name())
    ensures v.title == resource.title && v.description == resource.description && v.category == resource.category
    ensures v.duration == resource.duration && v.rating == resource.rating
  {
    var icon := TypeIcon(resource.kind);
    CardView(
      badgeIcon := icon,
      badgeText := resource.kind.Name(),
      title := resource.title,
      description := resource.description,
      duration := resource.duration,
      rating := resource.rating,
      tagLabels := TagLabels(resource.tags),
      moreIndicator := MoreIndicator(resource.tags),
      category := resource.category,
      languages := LanguagesLine(resource.languages),
      difficultyText := resource.difficulty.Name(),
      difficultyClass := DifficultyClass(resource.difficulty.Name()),
      buttonIcon := icon,
      actionLabel := ActionLabel(resource.kind.Name()),
      accent := PaletteClasses(accentColor))
  }

  /** One card per resource, in order, all under the same accent colour. */
  function RenderAll(resources: seq<Resource>, accentColor: Accent): (cards: seq<CardView>)
    ensures |cards| == |resources|
    ensures forall i :: 0 <= i < |cards| ==>
              Some(cards[i].accent) == GetAccentClasses(accentColor.Name())
              && cards[i].title == resources[i].title
              && cards[i].actionLabel == ActionLabel(resources[i].kind.Name())
    ensures forall i :: 0 <= i < |cards| ==> cards[i] == Render(resources[i], accentColor)
  {
    seq(|resources|, i requires 0 <= i < |resources| => Render(resources[i], accentColor))
  }

  /** Each declared type gets its own icon and label; the generic icon never appears. */
  lemma DeclaredTypeDisplay(t: ResourceType)
    ensures IconFor(t.Name()) == match t case Video => Play case Audio => Volume2 case Pdf => Download
    ensures ActionLabel(t.Name()) == match t case Video => "Watch Now" case Audio => "Listen Now" case Pdf => "Download PDF"
  {
  }

  /** The colour class follows the declared difficulty; advanced is the red fall-through. */
  lemma DeclaredDifficultyClass(d: Difficulty)
    ensures DifficultyClass(d.Name())
         == match d case Beginner => "text-green-600" case Intermediate => "text-yellow-600" case Advanced => "text-red-600"
  {
  }

  /** The lookup is defined on every colour of the palette, and distinct colours give distinct bundles. */
  lemma AccentLookupTotal(a: Accent, b: Accent)
    ensures GetAccentClasses(a.Name()).Some?
    ensures GetAccentClasses(a.Name()) == GetAccentClasses(b.Name()) <==> a == b
  {
  }

  /** The shown tags and the hidden count together account for every tag. */
  lemma TagsAccounted(tags: seq<string>)
    ensures |ShownTags(tags)| + (if HiddenTagCount(tags).Some? then HiddenTagCount(tags).value else 0) == |tags|
  {
  }

  /** Five tags give three labels, the first three in order, and the indicator "+2 more". */
  lemma FiveTags(tags: seq<string>)
    requires |tags| == 5
    ensures ShownTags(tags) == [tags[0], tags[1], tags[2]]
    ensures HiddenTagCount(tags) == Some(2)
    ensures MoreLabel(2) == "+2 more"
  {
  }

  /** An empty languages list shows nothing; a single language shows unchanged; a longer list has
      every language in order, separated by ", ". */
  lemma LanguagesLineShape(languages: seq<string>, last: string)
    ensures LanguagesLine([]) == ""
    ensures LanguagesLine([last]) == last
    ensures languages != [] ==> LanguagesLine(languages + [last]) == LanguagesLine(languages) + ", " + last
  {
    if languages != [] {
      JoinSnoc(languages, last, ", ");
    }
  }
}
