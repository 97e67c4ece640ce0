/**
 * The page head: every visible value falls back to a site default when its
 * property is absent or empty, robots follow `noIndex`, and article or event
 * meta tags appear only for pages of that type.
 */
module Seo {
  import opened Wrappers

  datatype PageType = Website | Article | EventPage | Organization | Person

  function TypeName(t: PageType): string
  {
    match t
    case Website => "website"
    case Article => "article"
    case EventPage => "event"
    case Organization => "organization"
    case Person => "person"
  }

  /** A supplied structured-data object, kept as its serialised text. */
  datatype StructuredData =
    | Supplied(json: string)
    | DefaultOrganization(name: string, url: string, logo: string, description: string)

  /** The component's properties; None is an absent property. */
  datatype Props = Props(
    title: Option<string>,
    description: Option<string>,
    keywords: Option<seq<string>>,
    image: Option<string>,
    url: Option<string>,
    pageType: Option<PageType>,
    publishedTime: Option<string>,
    modifiedTime: Option<string>,
    author: Option<string>,
    section: Option<string>,
    tags: Option<seq<string>>,
    structuredData: Option<StructuredData>,
    noIndex: Option<bool>,
    canonical: Option<string>)

  const SiteName := "CEUS - Chemical Engineering Undergraduate Society"
  /** What a page title is followed by, as written in the title template. */
  const TitleSuffix := " | CEUS - Chemical Engineering Undergraduate Society"
  const DefaultDescription := "The Chemical Engineering Undergraduate Society (CEUS) at UNSW. Join our community of chemical engineering students for events, networking, and professional development opportunities."
  const DefaultImage := "https://www.ceusunsw.com/images/assets/ceuslogo_noback_noname.png"
  const DefaultUrl := "https://www.ceusunsw.com"

  /** JavaScript's `value || fallback` on an optional string: absent and empty both fall back. */
  function OrElse(value: Option<string>, fallback: string): (r: string)
    ensures value.Some? && value.value != "" ==> r == value.value
    ensures value.None? || value.value == "" ==> r == fallback
  {
    if value.Some? && value.value != "" then value.value else fallback
  }

  /** The value of a property that is truthy, if any. */
  function Truthy(value: Option<string>): Option<string>
  {
    if value.Some? && value.value != "" then value else None
  }

  function FullTitle(p: Props): string
  {
    if p.title.Some? && p.title.value != "" then p.title.value + TitleSuffix else SiteName
  }

  function FullDescription(p: Props): string { OrElse(p.description, DefaultDescription) }
  function FullImage(p: Props): string { OrElse(p.image, DefaultImage) }
  function FullUrl(p: Props): string { OrElse(p.url, DefaultUrl) }
  function CanonicalUrl(p: Props): string { OrElse(p.canonical, FullUrl(p)) }

  /** `keywords.join(', ')`. */
  function Join(xs: seq<string>, sep: string): string
  {
    if xs == [] then "" else if |xs| == 1 then xs[0] else xs[0] + sep + Join(xs[1..], sep)
  }

  /** Joining one more keyword appends the separator and the keyword. */
  lemma {:induction false} JoinSnoc(xs: seq<string>, x: string, sep: string)
    requires xs != []
    ensures Join(xs + [x], sep) == Join(xs, sep) + sep + x
  {
    if |xs| == 1 {
      assert xs + [x] == [xs[0], x];
      assert [xs[0], x][1..] == [x];
    } else {
      assert (xs + [x])[1..] == xs[1..] + [x];
      JoinSnoc(xs[1..], x, sep);
    }
  }

  /** One `<meta property=... content=...>`. */
  datatype Meta = Meta(property: string, content: string)

  function TagMeta(tags: seq<string>): (r: seq<Meta>)
    ensures |r| == |tags|
    ensures forall i :: 0 <= i < |r| ==> r[i] == Meta("article:tag", tags[i])
  {
    if tags == [] then [] else [Meta("article:tag", tags[0])] + TagMeta(tags[1..])
  }

  function MetaIf(property: string, value: Option<string>): seq<Meta>
  {
    match Truthy(value)
    case Some(v) => [Meta(property, v)]
    case None => []
  }

  /** The head as rendered. */
  datatype Head = Head(
    title: string,
    description: string,
    keywords: Option<string>,
    robots: string,
    googlebot: string,
    canonical: string,
    ogType: string,
    ogUrl: string,
    ogImage: string,
    articleMeta: seq<Meta>,
    eventMeta: seq<Meta>,
    structuredData: StructuredData)

  /**
   * The rendered head: title, description, image, url and canonical url are
   * never empty, robots and googlebot always agree, and the page type is the
   * given one, a website by default.
   */
  function Render(p: Props): (h: Head)
    ensures h.title != "" && h.description != "" && h.ogImage != "" && h.ogUrl != "" && h.canonical != ""
    ensures h.robots == h.googlebot
    ensures h.ogType == TypeName(p.pageType.GetOr(Website))
  {
    var pageType := p.pageType.GetOr(Website);
    var keywords := p.keywords.GetOr([]);
    var tags := p.tags.GetOr([]);
    var robots := if p.noIndex.GetOr(false) then "noindex, nofollow" else "index, follow";
    Head(
      FullTitle(p),
      FullDescription(p),
      if |keywords| > 0 then Some(Join(keywords, ", ")) else None,
      robots,
      robots,
      CanonicalUrl(p),
      TypeName(pageType),
      FullUrl(p),
      FullImage(p),
      if pageType == Article then
        MetaIf("article:published_time", p.publishedTime) + MetaIf("article:modified_time", p.modifiedTime)
        + MetaIf("article:author", p.author) + MetaIf("article:section", p.section) + TagMeta(tags)
      else [],
      if pageType == EventPage then
        MetaIf("event:start_time", p.publishedTime) + MetaIf("event:end_time", p.modifiedTime)
      else [],
      match p.structuredData
      case Some(d) => d
      case None => DefaultOrganization(SiteName, DefaultUrl, DefaultImage, FullDescription(p)))
  }

  /** A non-empty title is followed by the site name; otherwise the site name stands alone. */
  lemma TitleSpec(p: Props)
    ensures p.title.Some? && p.title.value != "" ==> Render(p).title == p.title.value + " | CEUS - Chemical Engineering Undergraduate Society"
    ensures p.title.None? || p.title.value == "" ==> Render(p).title == "CEUS - Chemical Engineering Undergraduate Society"
  {
  }

  /** Description, image and url fall back when absent or empty; the canonical link falls back to the page url. */
  lemma DefaultsSpec(p: Props)
    ensures Render(p).description == if p.description.Some? && p.description.value != "" then p.description.value else DefaultDescription
    ensures Render(p).ogImage == if p.image.Some? && p.image.value != "" then p.image.value else DefaultImage
    ensures Render(p).ogUrl == if p.url.Some? && p.url.value != "" then p.url.value else DefaultUrl
    ensures p.canonical.None? || p.canonical.value == "" ==> Render(p).canonical == Render(p).ogUrl
    ensures Render(p).description != "" && Render(p).ogImage != "" && Render(p).ogUrl != "" && Render(p).canonical != ""
  {
  }

  /** Both robots tags forbid indexing exactly when `noIndex` is set, and it is unset by default. */
  lemma RobotsSpec(p: Props)
    ensures Render(p).robots == Render(p).googlebot
    ensures Render(p).robots == "noindex, nofollow" <==> p.noIndex == Some(true)
    ensures Render(p).robots == "index, follow" <==> p.noIndex != Some(true)
  {
  }

  /** The keywords tag exists exactly when there are keywords, and lists them separated by ", ". */
  lemma KeywordsSpec(p: Props, k: string)
    ensures Render(p).keywords.Some? <==> p.keywords.Some? && |p.keywords.value| > 0
    ensures p.keywords.Some? && p.keywords.value == [k] ==> Render(p).keywords == Some(k)
    ensures p.keywords.Some? && |p.keywords.value| > 0 ==>
              Render(p).keywords == Some(Join(p.keywords.value, ", "))
              && Join(p.keywords.value + [k], ", ") == Join(p.keywords.value, ", ") + ", " + k
  {
    if p.keywords.Some? && |p.keywords.value| > 0 {
      JoinSnoc(p.keywords.value, k, ", ");
    }
  }

  /**
   * Article tags only on articles, ending with one `article:tag` per tag in
   * order; event tags only on events, the published time as the start and
   * the modified time as the end.
   */
  lemma TypedMetaSpec(p: Props)
    ensures p.pageType != Some(Article) ==> Render(p).articleMeta == []
    ensures p.pageType != Some(EventPage) ==> Render(p).eventMeta == []
    ensures p.pageType == Some(Article) && p.tags.Some? ==>
              var m := Render(p).articleMeta;
              var tags := p.tags.value;
              |m| >= |tags| && forall i :: 0 <= i < |tags| ==> m[|m| - |tags| + i] == Meta("article:tag", tags[i])
    ensures |Render(p).eventMeta| <= 2
    ensures forall m :: m in Render(p).eventMeta ==> m.property == "event:start_time" || m.property == "event:end_time"
    ensures p.pageType == Some(EventPage) && p.publishedTime.Some? && p.publishedTime.value != "" ==>
              Render(p).eventMeta[0] == Meta("event:start_time", p.publishedTime.value)
    ensures p.publishedTime.None? || p.publishedTime.value == "" ==>
              forall m :: m in Render(p).eventMeta ==> m.property != "event:start_time"
    ensures p.pageType == Some(EventPage) && p.modifiedTime.Some? && p.modifiedTime.value != "" ==>
              Meta("event:end_time", p.modifiedTime.value) in Render(p).eventMeta
    ensures p.modifiedTime.None? || p.modifiedTime.value == "" ==>
              forall m :: m in Render(p).eventMeta ==> m.property != "event:end_time"
  {
  }

  /** Supplied structured data is used as is; otherwise the organisation, described by the page description. */
  lemma StructuredDataSpec(p: Props)
    ensures p.structuredData.Some? ==> Render(p).structuredData == p.structuredData.value
    ensures p.structuredData.None? ==> Render(p).structuredData.DefaultOrganization?
                                         && Render(p).structuredData.description == Render(p).description
  {
  }
}
