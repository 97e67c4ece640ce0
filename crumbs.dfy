/**
 * Breadcrumbs: a total map from a pathname to the trail shown above a page,
 * and the way each crumb renders.
 */
module Crumbs {
  import opened Wrappers

  /** A `BreadcrumbItem`; an absent `current` is false. */
  datatype Crumb = Crumb(text: string, href: Option<string>, current: bool)

  const HomeLink := Crumb("Home", Some("/"), false)

  /** The pages with a crumb of their own, paired with its label. */
  const Pages: seq<(string, string)> := [
    ("/about", "About"),
    ("/events", "Events"),
    ("/team", "Team"),
    ("/sponsors", "Sponsors"),
    ("/contact", "Contact"),
    ("/publications", "Publications")
  ]

  /** `getBreadcrumbs`: a trail of one or two crumbs that starts at "Home", with only the last one possibly current. */
  function GetBreadcrumbs(pathname: string): (trail: seq<Crumb>)
    ensures 1 <= |trail| <= 2 && trail[0].text == "Home"
    ensures forall i :: 0 <= i < |trail| - 1 ==> !trail[i].current
  {
    match pathname
    case "/" => [Crumb("Home", None, true)]
    case "/about" => [HomeLink, Crumb("About", None, true)]
    case "/events" => [HomeLink, Crumb("Events", None, true)]
    case "/team" => [HomeLink, Crumb("Team", None, true)]
    case "/sponsors" => [HomeLink, Crumb("Sponsors", None, true)]
    case "/contact" => [HomeLink, Crumb("Contact", None, true)]
    case "/publications" => [HomeLink, Crumb("Publications", None, true)]
    case _ => [HomeLink]
  }

  /**
   * The three cases: the root is a single current "Home" crumb without a
   * link; each listed page is a link home followed by its current label;
   * any other path is only the link home, with nothing current.
   */
  lemma GetBreadcrumbsCases(pathname: string, k: int)
    requires 0 <= k < |Pages|
    ensures pathname == "/" ==> GetBreadcrumbs(pathname) == [Crumb("Home", None, true)]
    ensures pathname == Pages[k].0 ==> GetBreadcrumbs(pathname) == [HomeLink, Crumb(Pages[k].1, None, true)]
    ensures pathname != "/" && (forall i :: 0 <= i < |Pages| ==> pathname != Pages[i].0) ==>
              GetBreadcrumbs(pathname) == [HomeLink]
  {
    if pathname != "/" && (forall i :: 0 <= i < |Pages| ==> pathname != Pages[i].0) {
      assert pathname != Pages[0].0 && pathname != Pages[1].0 && pathname != Pages[2].0;
      assert pathname != Pages[3].0 && pathname != Pages[4].0 && pathname != Pages[5].0;
    }
  }

  /**
   * Every trail has one or two crumbs and starts with "Home"; at most one
   * crumb is current and, when there is one, it is the last.
   */
  lemma GetBreadcrumbsShape(pathname: string)
    ensures 1 <= |GetBreadcrumbs(pathname)| <= 2
    ensures GetBreadcrumbs(pathname)[0].text == "Home"
    ensures forall i :: 0 <= i < |GetBreadcrumbs(pathname)| - 1 ==> !GetBreadcrumbs(pathname)[i].current
    ensures GetBreadcrumbs(pathname)[|GetBreadcrumbs(pathname)| - 1].current <==>
              pathname == "/" || exists i :: 0 <= i < |Pages| && pathname == Pages[i].0
  {
    if pathname != "/" && forall i :: 0 <= i < |Pages| ==> pathname != Pages[i].0 {
      GetBreadcrumbsCases(pathname, 0);
    } else if pathname != "/" {
      var i :| 0 <= i < |Pages| && pathname == Pages[i].0;
      GetBreadcrumbsCases(pathname, i);
    }
  }

  /** How one crumb renders. */
  datatype Node = CurrentSpan(text: string) | LinkNode(href: string, text: string) | PlainSpan(text: string)

  /** One `<li>`: whether a separator precedes it, and its node. */
  datatype Item = Item(separator: bool, node: Node)

  /** A current crumb is an aria-current span, else a non-empty href a link, else a plain span. */
  function RenderNode(c: Crumb): (n: Node)
    ensures n.text == c.text
    ensures n.CurrentSpan? <==> c.current
    ensures n.LinkNode? <==> !c.current && c.href.Some? && c.href.value != ""
    ensures n.LinkNode? ==> n.href == c.href.value
  {
    if c.current then CurrentSpan(c.text)
    else if c.href.Some? && c.href.value != "" then LinkNode(c.href.value, c.text)
    else PlainSpan(c.text)
  }

  /** `Breadcrumbs`: one item per crumb, in order, with a separator before all but the first. */
  function RenderBreadcrumbs(items: seq<Crumb>): (r: seq<Item>)
    ensures |r| == |items|
    ensures forall i :: 0 <= i < |r| ==> r[i] == Item(i > 0, RenderNode(items[i]))
  {
    RenderFrom(items, 0)
  }

  function RenderFrom(items: seq<Crumb>, start: nat): (r: seq<Item>)
    ensures |r| == |items|
    ensures forall i :: 0 <= i < |r| ==> r[i] == Item(start + i > 0, RenderNode(items[i]))
  {
    if items == [] then [] else [Item(start > 0, RenderNode(items[0]))] + RenderFrom(items[1..], start + 1)
  }

  /** On a listed page the trail renders as a link home, a separator and the current page's span. */
  lemma PageTrailRenders(k: int)
    requires 0 <= k < |Pages|
    ensures RenderBreadcrumbs(GetBreadcrumbs(Pages[k].0))
            == [Item(false, LinkNode("/", "Home")), Item(true, CurrentSpan(Pages[k].1))]
  {
    GetBreadcrumbsCases(Pages[k].0, k);
  }
}
