/**
 * The records of the event catalogue, the team pages and the sponsor list:
 * events with a closed category, members grouped into named teams, and
 * sponsors with a closed tier. All of them are immutable values.
 */
module Types {
  import opened Wrappers

  /** An identifier is a string or a number; numbers are taken to be integers. */
  datatype Id = StrId(str: string) | NumId(num: int)

  /** The closed set of event categories. */
  datatype Category = Regular | Workshop | Wellness | Social | Cultural | Academic | Other

  /** The string that stands for a category. */
  function Label(c: Category): string
  {
    match c
    case Regular => "Regular"
    case Workshop => "Workshop"
    case Wellness => "Wellness"
    case Social => "Social"
    case Cultural => "Cultural"
    case Academic => "Academic"
    case Other => "Other"
  }

  /**
   * Reads a category from its string: only the seven labels are categories,
   * so any other string (say "Zephyr") is rejected rather than passed on.
   */
  function ParseCategory(s: string): (r: Option<Category>)
    ensures forall c :: r == Some(c) <==> Label(c) == s
  {
    if s == "Regular" then Some(Regular)
    else if s == "Workshop" then Some(Workshop)
    else if s == "Wellness" then Some(Wellness)
    else if s == "Social" then Some(Social)
    else if s == "Cultural" then Some(Cultural)
    else if s == "Academic" then Some(Academic)
    else if s == "Other" then Some(Other)
    else None
  }

  /**
   * `new Date(s)` on an event's date string: a timestamp in milliseconds, or
   * None where the result is NaN (an invalid date).
   */
  type DateParser = string -> Option<int>

  /** An event of the catalogue; `date` is the ISO string as authored. */
  datatype Event = Event(
    id: Id,
    title: string,
    date: string,
    imageUrl: string,
    facebookEventLink: string,
    description: string,
    category: Category)

  /** A team member: id, name and role always, the rest optional. */
  datatype Member = Member(
    id: Id,
    name: string,
    role: string,
    imageUrl: Option<string>,
    email: Option<string>,
    linkedInUrl: Option<string>)

  /** A named team with its members in display order. */
  datatype TeamCategory = TeamCategory(name: string, members: seq<Member>)

  /** The data behind one filter button of the team page; `caption` is the label it shows. */
  datatype FilterButtonData = FilterButtonData(id: string, caption: string)

  /** The closed set of sponsor tiers. */
  datatype SponsorTier = Major | Supporting | OtherTier

  function TierLabel(t: SponsorTier): string
  {
    match t
    case Major => "Major"
    case Supporting => "Supporting"
    case OtherTier => "Other"
  }

  /** Reads a tier from its string; anything but the three labels is rejected. */
  function ParseTier(s: string): (r: Option<SponsorTier>)
    ensures forall t :: r == Some(t) <==> TierLabel(t) == s
  {
    if s == "Major" then Some(Major)
    else if s == "Supporting" then Some(Supporting)
    else if s == "Other" then Some(OtherTier)
    else None
  }

  datatype Sponsor = Sponsor(
    id: string,
    name: string,
    logoUrl: string,
    websiteUrl: string,
    description: string,
    tier: SponsorTier)

  /** Distinct categories have distinct labels, so a label names exactly one category. */
  lemma LabelInjective(a: Category, b: Category)
    ensures Label(a) == Label(b) ==> a == b
  {
    if Label(a) == Label(b) {
      assert ParseCategory(Label(a)) == Some(a);
    }
  }
}
