/**
 * One event card: the date line degrades to "Invalid Date", the category
 * badge colour falls back to the 'Other' colour, and a missing image falls
 * back to the default poster.
 */
module Card {
  import opened Wrappers
  import opened Types

  /** date-fns `format(date, 'MMMM d, yyyy')` of a valid timestamp. */
  type DateFormatter = int -> string

  const InvalidDate := "Invalid Date"
  const FallbackImage := "/images/events/matachaimages.jpg"

  /** The displayed date: formatted when `new Date(date)` is valid, "Invalid Date" otherwise. */
  function FormattedDate(parse: DateParser, format: DateFormatter, date: string): (text: string)
    ensures parse(date).None? ==> text == InvalidDate
    ensures parse(date).Some? ==> text == format(parse(date).value)
  {
    match parse(date)
    case Some(t) => format(t)
    case None => InvalidDate
  }

  /** The `colors` table of `getCategoryColor`. */
  const CategoryColors: map<string, string> := map[
    "Regular" := "bg-green-100 text-green-800",
    "Workshop" := "bg-blue-100 text-blue-800",
    "Wellness" := "bg-purple-100 text-purple-800",
    "Social" := "bg-orange-100 text-orange-800",
    "Cultural" := "bg-pink-100 text-pink-800",
    "Academic" := "bg-indigo-100 text-indigo-800",
    "Other" := "bg-gray-100 text-gray-800"
  ]

  /** `getCategoryColor`: the listed colour, or the 'Other' colour for a string that is not listed. */
  function CategoryColor(category: string): (cls: string)
    ensures cls in CategoryColors.Values
    ensures category in CategoryColors ==> cls == CategoryColors[category]
    ensures category !in CategoryColors ==> cls == "bg-gray-100 text-gray-800"
  {
    if category in CategoryColors then CategoryColors[category] else CategoryColors["Other"]
  }

  /** Each of the seven categories gets its listed colour. */
  lemma CategoryColorListed()
    ensures CategoryColor(Label(Regular)) == "bg-green-100 text-green-800"
    ensures CategoryColor(Label(Workshop)) == "bg-blue-100 text-blue-800"
    ensures CategoryColor(Label(Wellness)) == "bg-purple-100 text-purple-800"
    ensures CategoryColor(Label(Social)) == "bg-orange-100 text-orange-800"
    ensures CategoryColor(Label(Cultural)) == "bg-pink-100 text-pink-800"
    ensures CategoryColor(Label(Academic)) == "bg-indigo-100 text-indigo-800"
    ensures CategoryColor(Label(Other)) == "bg-gray-100 text-gray-800"
  {
  }

  /**
   * The lookup is total: a string that names no category gets the 'Other'
   * colour, and distinct categories get distinct colours.
   */
  lemma CategoryColorTotal(s: string, a: Category, b: Category)
    ensures ParseCategory(s).None? ==> CategoryColor(s) == "bg-gray-100 text-gray-800"
    ensures a != b ==> CategoryColor(Label(a)) != CategoryColor(Label(b))
  {
    assert CategoryColors.Keys == {"Regular", "Workshop", "Wellness", "Social", "Cultural", "Academic", "Other"};
    if ParseCategory(s).None? {
      assert forall c :: Label(c) != s;
      assert s != Label(Regular) && s != Label(Workshop) && s != Label(Social);
      assert s !in CategoryColors;
    }
    CategoryColorListed();
  }

  /** The poster: the event's image, or the default one when the image string is empty. */
  function ImageSrc(imageUrl: string): (src: string)
    ensures src != ""
    ensures imageUrl != "" ==> src == imageUrl
  {
    if imageUrl != "" then imageUrl else FallbackImage
  }

  /** What the card shows. */
  datatype CardView = CardView(
    imageSrc: string,
    imageAlt: string,
    badgeText: string,
    badgeClass: string,
    dateText: string,
    title: string,
    description: string,
    link: string)

  /**
   * The card of one event: its poster (never empty), its title as heading
   * and alt text, its category as badge in that category's colour, its date
   * line, its description and its Facebook link.
   */
  function RenderCard(e: Event, parse: DateParser, format: DateFormatter): (v: CardView)
    ensures v.imageSrc != "" && v.title == e.title && v.imageAlt == e.title
    ensures v.badgeText == Label(e.category) && v.badgeClass == CategoryColors[Label(e.category)]
    ensures v.description == e.description && v.link == e.facebookEventLink
  {
    CardView(
      ImageSrc(e.imageUrl),
      e.title,
      Label(e.category),
      CategoryColor(Label(e.category)),
      FormattedDate(parse, format, e.date),
      e.title,
      e.description,
      e.facebookEventLink)
  }

  /**
   * The badge shows the category verbatim in that category's own listed
   * colour (so `CategoryColorListed` gives the class each card shows), the
   * action links to the Facebook event, and the image and date fall back as
   * described above.
   */
  lemma RenderCardSpec(e: Event, parse: DateParser, format: DateFormatter)
    ensures ParseCategory(RenderCard(e, parse, format).badgeText) == Some(e.category)
    ensures RenderCard(e, parse, format).badgeClass == CategoryColor(Label(e.category)) == CategoryColors[Label(e.category)]
    ensures RenderCard(e, parse, format).link == e.facebookEventLink
    ensures RenderCard(e, parse, format).imageSrc == if e.imageUrl == "" then FallbackImage else e.imageUrl
    ensures RenderCard(e, parse, format).dateText == if parse(e.date).None? then InvalidDate else format(parse(e.date).value)
  {
    assert Label(e.category) in CategoryColors;
  }
}
