/**
 * The home page's "Upcoming Events" section: the events of the next two
 * weeks, in catalogue order, shown in a carousel whose wrap-around is
 * switched off when there are too few slides, or a call to action to the
 * events page when there are none.
 */
module Home {
  import opened Wrappers
  import opened Seqs
  import opened Types

  /** Fourteen days in milliseconds. */
  const TwoWeeksMs: int := 14 * 24 * 60 * 60 * 1000

  /** `eventDate >= now && eventDate <= twoWeeksFromNow`; both comparisons are false for NaN. */
  predicate InWindow(parse: DateParser, now: int, e: Event)
  {
    parse(e.date).Some? && now <= parse(e.date).value <= now + TwoWeeksMs
  }

  function WindowAt(parse: DateParser, now: int): Event -> bool
  {
    (e: Event) => InWindow(parse, now, e)
  }

  /** `upcomingEventsNextTwoWeeks`: the catalogue's events that fall in the window. */
  function NextTwoWeeks(all: seq<Event>, parse: DateParser, now: int): (r: seq<Event>)
    ensures |r| <= |all|
    ensures forall e :: e in r <==> e in all && InWindow(parse, now, e)
  {
    Filter(all, WindowAt(parse, now))
  }

  /**
   * An event is selected exactly when its date parses and lies in
   * [now, now + 14 days], both ends included; so an unparseable date is
   * never selected.
   */
  lemma NextTwoWeeksMembers(all: seq<Event>, parse: DateParser, now: int, e: Event)
    ensures e in NextTwoWeeks(all, parse, now) <==>
              e in all && parse(e.date).Some? && now <= parse(e.date).value <= now + TwoWeeksMs
    ensures parse(e.date).None? ==> e !in NextTwoWeeks(all, parse, now)
  {
    assert WindowAt(parse, now)(e) == InWindow(parse, now, e);
  }

  /** The selection keeps the catalogue order (it is not re-sorted) and each event's multiplicity. */
  lemma NextTwoWeeksOrder(all: seq<Event>, parse: DateParser, now: int, e: Event)
    ensures IsSubsequence(NextTwoWeeks(all, parse, now), all)
    ensures multiset(NextTwoWeeks(all, parse, now))[e] == if InWindow(parse, now, e) then multiset(all)[e] else 0
  {
    FilterIsSubsequence(all, WindowAt(parse, now));
    FilterCount(all, WindowAt(parse, now), e);
  }

  /**
   * The window ends at an exact instant, not at the end of a day: an event at
   * `now + 14 days` is taken, one a millisecond later is not.
   */
  lemma WindowEndIsExact(all: seq<Event>, parse: DateParser, now: int, e: Event)
    requires e in all
    ensures parse(e.date) == Some(now + TwoWeeksMs) ==> e in NextTwoWeeks(all, parse, now)
    ensures parse(e.date) == Some(now + TwoWeeksMs + 1) ==> e !in NextTwoWeeks(all, parse, now)
    ensures parse(e.date) == Some(now) ==> e in NextTwoWeeks(all, parse, now)
  {
    NextTwoWeeksMembers(all, parse, now, e);
  }

  /** One breakpoint entry of the carousel's `responsive` list. */
  datatype Responsive = Responsive(
    breakpoint: nat,
    slidesToShow: nat,
    slidesToScroll: nat,
    infinite: bool,
    dots: Option<bool>,
    initialSlide: Option<nat>)

  /** `eventSettings`. */
  datatype CarouselSettings = CarouselSettings(
    dots: bool,
    infinite: bool,
    slidesToShow: nat,
    slidesToScroll: nat,
    autoplay: bool,
    autoplaySpeed: nat,
    pauseOnHover: bool,
    responsive: seq<Responsive>)

  /**
   * The carousel settings for `count` selected events: three slides by
   * default, two below 1024px, one below 600px, and wrap-around at each
   * width exactly when there are more events than slides shown there.
   */
  function EventSettings(count: nat): (s: CarouselSettings)
    ensures s.slidesToShow == 3 && |s.responsive| == 2
    ensures s.responsive[0].breakpoint == 1024 && s.responsive[0].slidesToShow == 2
    ensures s.responsive[1].breakpoint == 600 && s.responsive[1].slidesToShow == 1
    ensures s.infinite <==> count > s.slidesToShow
    ensures forall r :: r in s.responsive ==> (r.infinite <==> count > r.slidesToShow)
  {
    CarouselSettings(
      dots := true,
      infinite := count > 3,
      slidesToShow := 3,
      slidesToScroll := 1,
      autoplay := true,
      autoplaySpeed := 7000,
      pauseOnHover := true,
      responsive := [
        Responsive(1024, 2, 1, count > 2, Some(true), None),
        Responsive(600, 1, 1, count > 1, None, Some(0))
      ])
  }

  /** One carousel slide shows the event's title and its date string as authored. */
  datatype Slide = Slide(title: string, date: string)

  /** What the events section of the home page shows. */
  datatype EventsSection =
    | Carousel(settings: CarouselSettings, slides: seq<Slide>)
    | Fallback(message: string, linkHref: string, buttonText: string)

  const FallbackMessage := "No events scheduled for the next two weeks. Check out our events page for upcoming tea ceremonies and tastings!"

  function Slides(events: seq<Event>): (slides: seq<Slide>)
    ensures |slides| == |events|
    ensures forall i :: 0 <= i < |events| ==> slides[i] == Slide(events[i].title, events[i].date)
  {
    if events == [] then [] else [Slide(events[0].title, events[0].date)] + Slides(events[1..])
  }

  /**
   * A carousel of the window's events when there are any, with settings for
   * their number; otherwise the call to action to the events page.
   */
  function RenderEventsSection(all: seq<Event>, parse: DateParser, now: int): (s: EventsSection)
    ensures s.Carousel? <==> |NextTwoWeeks(all, parse, now)| > 0
    ensures s.Carousel? ==> |s.slides| == |NextTwoWeeks(all, parse, now)| && s.settings == EventSettings(|s.slides|)
    ensures s.Fallback? ==> s == Fallback(FallbackMessage, "/events", "View All Events")
  {
    var upcoming := NextTwoWeeks(all, parse, now);
    if |upcoming| > 0 then Carousel(EventSettings(|upcoming|), Slides(upcoming))
    else Fallback(FallbackMessage, "/events", "View All Events")
  }

  /**
   * The carousel is shown exactly when some event falls in the window, with
   * one slide per selected event in order and settings for that count;
   * otherwise the call to action links to the events page.
   */
  lemma RenderEventsSectionSpec(all: seq<Event>, parse: DateParser, now: int)
    ensures RenderEventsSection(all, parse, now).Carousel? <==> exists e :: e in all && InWindow(parse, now, e)
    ensures RenderEventsSection(all, parse, now).Carousel? ==>
              var upcoming := NextTwoWeeks(all, parse, now);
              && RenderEventsSection(all, parse, now).settings == EventSettings(|upcoming|)
              && |RenderEventsSection(all, parse, now).slides| == |upcoming|
              && forall i :: 0 <= i < |upcoming| ==>
                   RenderEventsSection(all, parse, now).slides[i] == Slide(upcoming[i].title, upcoming[i].date)
    ensures RenderEventsSection(all, parse, now).Fallback? ==> RenderEventsSection(all, parse, now).linkHref == "/events"
  {
    var upcoming := NextTwoWeeks(all, parse, now);
    if exists e :: e in all && InWindow(parse, now, e) {
      var e :| e in all && InWindow(parse, now, e);
      NextTwoWeeksMembers(all, parse, now, e);
    }
    if |upcoming| > 0 {
      NextTwoWeeksMembers(all, parse, now, upcoming[0]);
    }
  }

  /** 2025-03-10T00:00:00Z, 2025-03-20T00:00:00Z and 2025-03-25T00:00:00Z in milliseconds. */
  const March10: int := 1741564800000
  const March20: int := 1742428800000
  const March25: int := 1742860800000

  /**
   * With `now` at 2025-03-10 the window takes an event of 2025-03-20 and
   * leaves out one of 2025-03-25.
   */
  lemma WindowExample(a: Event, b: Event, parse: DateParser)
    requires parse(a.date) == Some(March20) && parse(b.date) == Some(March25)
    ensures NextTwoWeeks([a, b], parse, March10) == [a]
  {
    var w := WindowAt(parse, March10);
    assert w(a) && !w(b);
    assert [a, b][1..] == [b] && [b][1..] == [];
    assert Filter([b], w) == Filter([], w) == [];
    assert Filter([a, b], w) == [a] + Filter([b], w);
  }
}
