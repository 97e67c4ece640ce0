/**
 * The events page: one `now`, captured once, splits the catalogue into
 * upcoming events (date >= now, earliest first) and past events (date < now,
 * latest first); each section has its own category filter, its own filter
 * buttons and a grid that shows placeholders, an empty state or the cards.
 */
module Events {
  import opened Wrappers
  import opened Seqs
  import opened Types

  /** The categories in the order their filter buttons appear. */
  const EventCategories: seq<Category> := [Regular, Workshop, Wellness, Social, Cultural, Academic, Other]

  /** Position of a category in EventCategories. */
  function Rank(c: Category): (k: nat)
    ensures k < |EventCategories| && EventCategories[k] == c
  {
    match c
    case Regular => 0
    case Workshop => 1
    case Wellness => 2
    case Social => 3
    case Cultural => 4
    case Academic => 5
    case Other => 6
  }

  /** EventCategories lists every category exactly once. */
  lemma EventCategoriesComplete()
    ensures |EventCategories| == 7
    ensures forall c :: c in EventCategories
    ensures forall i, j :: 0 <= i < j < |EventCategories| ==> EventCategories[i] != EventCategories[j]
  {
    forall c ensures c in EventCategories {
      assert EventCategories[Rank(c)] == c;
    }
  }

  /** A section filter: the sentinel 'All' or one category. */
  datatype CategoryFilter = All | Only(category: Category)

  /** Both comparisons with a NaN date are false, so an unparseable date is neither upcoming nor past. */
  predicate IsUpcoming(parse: DateParser, now: int, e: Event)
  {
    parse(e.date).Some? && parse(e.date).value >= now
  }

  predicate IsPast(parse: DateParser, now: int, e: Event)
  {
    parse(e.date).Some? && parse(e.date).value < now
  }

  predicate Matches(f: CategoryFilter, e: Event)
  {
    f == All || e.category == f.category
  }

  function UpcomingAt(parse: DateParser, now: int): Event -> bool
  {
    (e: Event) => IsUpcoming(parse, now, e)
  }

  function PastAt(parse: DateParser, now: int): Event -> bool
  {
    (e: Event) => IsPast(parse, now, e)
  }

  function MatchesFilter(f: CategoryFilter): Event -> bool
  {
    (e: Event) => Matches(f, e)
  }

  /** `new Date(e.date).getTime()`; only used on events whose date parsed. */
  function Millis(parse: DateParser): Event -> int
  {
    (e: Event) => parse(e.date).GetOr(0)
  }

  /** The events with a given timestamp. */
  function DatedAt(parse: DateParser, t: int): Event -> bool
  {
    (e: Event) => parse(e.date) == Some(t)
  }

  /** The upcoming events of the filter's category, before sorting. */
  function UpcomingSelection(all: seq<Event>, parse: DateParser, now: int, f: CategoryFilter): seq<Event>
  {
    Filter(Filter(all, UpcomingAt(parse, now)), MatchesFilter(f))
  }

  function PastSelection(all: seq<Event>, parse: DateParser, now: int, f: CategoryFilter): seq<Event>
  {
    Filter(Filter(all, PastAt(parse, now)), MatchesFilter(f))
  }

  /**
   * The `upcomingEvents` memo: select, filter by category, sort ascending by
   * date. It holds the events with a date from `now` on and the filter's
   * category, rearranged into date order.
   */
  function UpcomingEvents(all: seq<Event>, parse: DateParser, now: int, f: CategoryFilter): (r: seq<Event>)
    ensures multiset(r) == multiset(UpcomingSelection(all, parse, now, f))
    ensures forall e :: e in r <==> e in all && IsUpcoming(parse, now, e) && Matches(f, e)
    ensures SortedBy(r, Millis(parse))
  {
    var sel := UpcomingSelection(all, parse, now, f);
    SortByMembers(sel, Millis(parse));
    SortBy(sel, Millis(parse))
  }

  /**
   * The `pastEvents` memo: select, filter by category, sort descending by
   * date. It holds the events with a date before `now` and the filter's
   * category, rearranged latest first.
   */
  function PastEvents(all: seq<Event>, parse: DateParser, now: int, f: CategoryFilter): (r: seq<Event>)
    ensures multiset(r) == multiset(PastSelection(all, parse, now, f))
    ensures forall e :: e in r <==> e in all && IsPast(parse, now, e) && Matches(f, e)
    ensures SortedBy(r, Neg(Millis(parse)))
  {
    var sel := PastSelection(all, parse, now, f);
    SortByMembers(sel, Neg(Millis(parse)));
    SortBy(sel, Neg(Millis(parse)))
  }

  /** Each occurrence of an event that passes both filters is kept, as often as in the catalogue, and nothing else. */
  lemma SelectionCounts(all: seq<Event>, p: Event -> bool, f: CategoryFilter, key: Event -> int, e: Event)
    ensures multiset(SortBy(Filter(Filter(all, p), MatchesFilter(f)), key))[e]
            == if p(e) && Matches(f, e) then multiset(all)[e] else 0
  {
    var a := Filter(all, p);
    var b := Filter(a, MatchesFilter(f));
    assert multiset(SortBy(b, key)) == multiset(b);
    FilterCount(a, MatchesFilter(f), e);
    FilterCount(all, p, e);
  }

  /**
   * Each occurrence of an upcoming event of the filter's category is kept
   * exactly as often as in the catalogue, and nothing else is.
   */
  lemma UpcomingEventsCounts(all: seq<Event>, parse: DateParser, now: int, f: CategoryFilter, e: Event)
    ensures multiset(UpcomingEvents(all, parse, now, f))[e]
            == if IsUpcoming(parse, now, e) && Matches(f, e) then multiset(all)[e] else 0
  {
    SelectionCounts(all, UpcomingAt(parse, now), f, Millis(parse), e);
  }

  /** Every upcoming event is dated at or after `now` and matches the filter. */
  lemma UpcomingEventsSound(all: seq<Event>, parse: DateParser, now: int, f: CategoryFilter, e: Event)
    requires e in UpcomingEvents(all, parse, now, f)
    ensures parse(e.date).Some? && parse(e.date).value >= now && Matches(f, e)
  {
    UpcomingEventsCounts(all, parse, now, f, e);
    assert e in multiset(UpcomingEvents(all, parse, now, f));
  }

  /** Upcoming events run earliest first. */
  lemma UpcomingEventsSorted(all: seq<Event>, parse: DateParser, now: int, f: CategoryFilter, i: int, j: int)
    requires 0 <= i < j < |UpcomingEvents(all, parse, now, f)|
    ensures parse(UpcomingEvents(all, parse, now, f)[i].date).Some? && parse(UpcomingEvents(all, parse, now, f)[j].date).Some?
    ensures parse(UpcomingEvents(all, parse, now, f)[i].date).value <= parse(UpcomingEvents(all, parse, now, f)[j].date).value
  {
    var r := UpcomingEvents(all, parse, now, f);
    UpcomingEventsSound(all, parse, now, f, r[i]);
    UpcomingEventsSound(all, parse, now, f, r[j]);
    assert Millis(parse)(r[i]) <= Millis(parse)(r[j]);
  }

  /** The past section: the same count-exact selection of events dated before `now`. */
  lemma PastEventsCounts(all: seq<Event>, parse: DateParser, now: int, f: CategoryFilter, e: Event)
    ensures multiset(PastEvents(all, parse, now, f))[e]
            == if IsPast(parse, now, e) && Matches(f, e) then multiset(all)[e] else 0
  {
    SelectionCounts(all, PastAt(parse, now), f, Neg(Millis(parse)), e);
  }

  /** Every past event is dated strictly before `now` and matches the filter. */
  lemma PastEventsSound(all: seq<Event>, parse: DateParser, now: int, f: CategoryFilter, e: Event)
    requires e in PastEvents(all, parse, now, f)
    ensures parse(e.date).Some? && parse(e.date).value < now && Matches(f, e)
  {
    PastEventsCounts(all, parse, now, f, e);
    assert e in multiset(PastEvents(all, parse, now, f));
  }

  /** Past events run latest first. */
  lemma PastEventsSorted(all: seq<Event>, parse: DateParser, now: int, f: CategoryFilter, i: int, j: int)
    requires 0 <= i < j < |PastEvents(all, parse, now, f)|
    ensures parse(PastEvents(all, parse, now, f)[i].date).Some? && parse(PastEvents(all, parse, now, f)[j].date).Some?
    ensures parse(PastEvents(all, parse, now, f)[i].date).value >= parse(PastEvents(all, parse, now, f)[j].date).value
  {
    var r := PastEvents(all, parse, now, f);
    PastEventsSound(all, parse, now, f, r[i]);
    PastEventsSound(all, parse, now, f, r[j]);
    assert Neg(Millis(parse))(r[i]) <= Neg(Millis(parse))(r[j]);
  }

  /** Events with equal timestamps keep their catalogue order in both sections (the sort is stable). */
  lemma SectionsStable(all: seq<Event>, parse: DateParser, now: int, upcoming: CategoryFilter, past: CategoryFilter, t: int)
    ensures Filter(UpcomingEvents(all, parse, now, upcoming), DatedAt(parse, t))
            == Filter(UpcomingSelection(all, parse, now, upcoming), DatedAt(parse, t))
    ensures Filter(PastEvents(all, parse, now, past), DatedAt(parse, t))
            == Filter(PastSelection(all, parse, now, past), DatedAt(parse, t))
  {
    SortByStable(UpcomingSelection(all, parse, now, upcoming), Millis(parse), DatedAt(parse, t));
    SortByStable(PastSelection(all, parse, now, past), Neg(Millis(parse)), DatedAt(parse, t));
  }

  /**
   * With both filters at 'All' the two sections together hold an event whose
   * date parses exactly as often as the catalogue does, and an event whose
   * date does not parse not at all.
   */
  lemma PartitionCoverage(all: seq<Event>, parse: DateParser, now: int, e: Event)
    ensures multiset(UpcomingEvents(all, parse, now, All))[e] + multiset(PastEvents(all, parse, now, All))[e]
            == if parse(e.date).Some? then multiset(all)[e] else 0
  {
    UpcomingEventsCounts(all, parse, now, All, e);
    PastEventsCounts(all, parse, now, All, e);
  }

  /** No event is in both sections, and one whose date does not parse is in neither. */
  lemma PartitionDisjoint(all: seq<Event>, parse: DateParser, now: int, e: Event)
    ensures !(e in UpcomingEvents(all, parse, now, All) && e in PastEvents(all, parse, now, All))
    ensures parse(e.date).None? ==> e !in UpcomingEvents(all, parse, now, All) && e !in PastEvents(all, parse, now, All)
  {
    UpcomingEventsCounts(all, parse, now, All, e);
    PastEventsCounts(all, parse, now, All, e);
    var u := UpcomingEvents(all, parse, now, All);
    var p := PastEvents(all, parse, now, All);
    assert e in u <==> e in multiset(u);
    assert e in p <==> e in multiset(p);
  }

  /**
   * The category filter: 'All' passes the section through unchanged, a
   * category keeps exactly the events of that category, and filtering twice
   * is filtering once.
   */
  lemma CategoryFilterSpec(s: seq<Event>, f: CategoryFilter)
    ensures f == All ==> Filter(s, MatchesFilter(f)) == s
    ensures f.Only? ==> forall e :: e in Filter(s, MatchesFilter(f)) <==> e in s && e.category == f.category
    ensures Filter(Filter(s, MatchesFilter(f)), MatchesFilter(f)) == Filter(s, MatchesFilter(f))
  {
    if f == All {
      FilterKeepsAll(s, MatchesFilter(f));
    }
    FilterIdempotent(s, MatchesFilter(f));
  }

  /** `allEventsData.some(event => event.category === category)`. */
  predicate HasCategory(all: seq<Event>, c: Category)
  {
    exists i :: 0 <= i < |all| && all[i].category == c
  }

  /** One `EventFilterButton`: its label, the filter it sets and whether it is active. */
  datatype FilterButton = FilterButton(text: string, filter: CategoryFilter, isActive: bool)

  /**
   * The buttons of the categories of `cats` that occur in the data, in
   * order: each is a category's button, labelled with it and active exactly
   * when it is the current filter.
   */
  function CategoryButtons(all: seq<Event>, current: CategoryFilter, cats: seq<Category>): (r: seq<FilterButton>)
    ensures |r| <= |cats|
    ensures forall i :: 0 <= i < |r| ==> r[i].filter.Only? && r[i].text == Label(r[i].filter.category)
    ensures forall i :: 0 <= i < |r| ==> (r[i].isActive <==> r[i].filter == current)
  {
    if cats == [] then []
    else
      (if HasCategory(all, cats[0]) then [FilterButton(Label(cats[0]), Only(cats[0]), current == Only(cats[0]))] else [])
      + CategoryButtons(all, current, cats[1..])
  }

  /** The position of a button's filter: 'All' before every category. */
  function FilterRank(f: CategoryFilter): int
  {
    if f == All then -1 else Rank(f.category)
  }

  /** Ranks increase along `cats`. */
  ghost predicate RankIncreasing(cats: seq<Category>)
  {
    forall i, j :: 0 <= i < j < |cats| ==> Rank(cats[i]) < Rank(cats[j])
  }

  /** Each button offered for `cats` is the button of a category of `cats` that occurs in the data. */
  lemma {:induction false} CategoryButtonsSound(all: seq<Event>, current: CategoryFilter, cats: seq<Category>, b: FilterButton)
    requires b in CategoryButtons(all, current, cats)
    ensures b.filter.Only? && b.filter.category in cats && HasCategory(all, b.filter.category)
    ensures b.text == Label(b.filter.category) && (b.isActive <==> current == b.filter)
  {
    if cats != [] {
      var head := if HasCategory(all, cats[0]) then [FilterButton(Label(cats[0]), Only(cats[0]), current == Only(cats[0]))] else [];
      assert CategoryButtons(all, current, cats) == head + CategoryButtons(all, current, cats[1..]);
      if b !in head {
        CategoryButtonsSound(all, current, cats[1..], b);
        assert cats == [cats[0]] + cats[1..];
      }
    }
  }

  /** Every category of `cats` that occurs in the data gets a button. */
  lemma {:induction false} CategoryButtonsComplete(all: seq<Event>, current: CategoryFilter, cats: seq<Category>, c: Category)
    requires c in cats && HasCategory(all, c)
    ensures FilterButton(Label(c), Only(c), current == Only(c)) in CategoryButtons(all, current, cats)
  {
    var head := if HasCategory(all, cats[0]) then [FilterButton(Label(cats[0]), Only(cats[0]), current == Only(cats[0]))] else [];
    assert CategoryButtons(all, current, cats) == head + CategoryButtons(all, current, cats[1..]);
    if cats[0] != c {
      assert cats == [cats[0]] + cats[1..];
      CategoryButtonsComplete(all, current, cats[1..], c);
    }
  }

  /** Buttons come in the order of their categories in `cats`. */
  lemma {:induction false} CategoryButtonsOrdered(all: seq<Event>, current: CategoryFilter, cats: seq<Category>)
    requires RankIncreasing(cats)
    ensures forall i, j :: 0 <= i < j < |CategoryButtons(all, current, cats)| ==>
              FilterRank(CategoryButtons(all, current, cats)[i].filter) < FilterRank(CategoryButtons(all, current, cats)[j].filter)
  {
    if cats != [] {
      var tail := cats[1..];
      assert RankIncreasing(tail) by {
        forall i, j | 0 <= i < j < |tail| ensures Rank(tail[i]) < Rank(tail[j]) {
          assert tail[i] == cats[i + 1] && tail[j] == cats[j + 1];
        }
      }
      CategoryButtonsOrdered(all, current, tail);
      var rest := CategoryButtons(all, current, tail);
      if HasCategory(all, cats[0]) {
        var b0 := FilterButton(Label(cats[0]), Only(cats[0]), current == Only(cats[0]));
        var r := [b0] + rest;
        assert CategoryButtons(all, current, cats) == r;
        forall i, j | 0 <= i < j < |r| ensures FilterRank(r[i].filter) < FilterRank(r[j].filter) {
          assert r[j] == rest[j - 1];
          assert rest[j - 1] in rest;
          CategoryButtonsSound(all, current, tail, rest[j - 1]);
          var k :| 0 <= k < |tail| && tail[k] == rest[j - 1].filter.category;
          assert cats[k + 1] == tail[k];
          if i > 0 {
            assert r[i] == rest[i - 1];
          }
        }
      }
    }
  }

  /**
   * The `renderFilterButtons` of a section: 'All', then the category
   * buttons; at most one button per category, and each active exactly when
   * its filter is the current one.
   */
  function RenderFilterButtons(all: seq<Event>, current: CategoryFilter): (r: seq<FilterButton>)
    ensures 1 <= |r| <= 1 + |EventCategories|
    ensures r[0] == FilterButton("All", All, current == All)
    ensures forall i :: 0 < i < |r| ==> r[i].filter.Only? && r[i].text == Label(r[i].filter.category)
    ensures forall i :: 0 <= i < |r| ==> (r[i].isActive <==> r[i].filter == current)
  {
    [FilterButton("All", All, current == All)] + CategoryButtons(all, current, EventCategories)
  }

  /**
   * The 'All' button comes first; every other button is the button of a
   * category that occurs somewhere in the whole catalogue, labelled with the
   * category; a button is active exactly when its filter is the current one.
   */
  lemma RenderFilterButtonsSound(all: seq<Event>, current: CategoryFilter, b: FilterButton)
    requires b in RenderFilterButtons(all, current)
    ensures RenderFilterButtons(all, current)[0] == FilterButton("All", All, current == All)
    ensures b.isActive <==> b.filter == current
    ensures b.filter.Only? ==> HasCategory(all, b.filter.category) && b.text == Label(b.filter.category)
  {
    var tail := CategoryButtons(all, current, EventCategories);
    if b in tail {
      CategoryButtonsSound(all, current, EventCategories, b);
    }
  }

  /** A category's button is offered exactly when some event of the catalogue has that category. */
  lemma RenderFilterButtonsComplete(all: seq<Event>, current: CategoryFilter, c: Category)
    ensures FilterButton(Label(c), Only(c), current == Only(c)) in RenderFilterButtons(all, current) <==> HasCategory(all, c)
  {
    var tail := CategoryButtons(all, current, EventCategories);
    var b := FilterButton(Label(c), Only(c), current == Only(c));
    if HasCategory(all, c) {
      EventCategoriesComplete();
      CategoryButtonsComplete(all, current, EventCategories, c);
    }
    if b in RenderFilterButtons(all, current) {
      RenderFilterButtonsSound(all, current, b);
    }
  }

  /** The buttons follow 'All' and then the EventCategories order, so none is repeated. */
  lemma RenderFilterButtonsOrdered(all: seq<Event>, current: CategoryFilter, i: int, j: int)
    requires 0 <= i < j < |RenderFilterButtons(all, current)|
    ensures FilterRank(RenderFilterButtons(all, current)[i].filter) < FilterRank(RenderFilterButtons(all, current)[j].filter)
  {
    var tail := CategoryButtons(all, current, EventCategories);
    var r := RenderFilterButtons(all, current);
    assert r[j] == tail[j - 1];
    if i > 0 {
      EventCategoriesRanked();
      CategoryButtonsOrdered(all, current, EventCategories);
      assert r[i] == tail[i - 1];
    }
  }

  /** Each category's rank is its position in EventCategories, so ranks increase along it. */
  lemma EventCategoriesRanked()
    ensures RankIncreasing(EventCategories)
  {
    assert forall k :: 0 <= k < |EventCategories| ==> Rank(EventCategories[k]) == k;
  }

  datatype Section = UpcomingSection | PastSection

  /** What `renderEventGrid` shows. */
  datatype Grid =
    | Placeholders(count: nat)
    | EmptyState(heading: string, message: string)
    | Cards(events: seq<Event>)

  const PlaceholderCount: nat := 6

  function EmptyHeading(section: Section): string
  {
    if section == UpcomingSection then "No Upcoming Events" else "No Past Events"
  }

  function EmptyMessage(section: Section): string
  {
    if section == UpcomingSection then "Check back soon for new events, or follow us on social media for updates!"
    else "No past events to display currently."
  }

  /**
   * While loading, six placeholders whatever the events; otherwise the
   * section's empty state for no events, else one card per event in order.
   * The grid is never blank.
   */
  function RenderEventGrid(isLoading: bool, events: seq<Event>, section: Section): (g: Grid)
    ensures isLoading ==> g == Placeholders(PlaceholderCount)
    ensures !isLoading && events == [] ==> g == EmptyState(EmptyHeading(section), EmptyMessage(section))
    ensures !isLoading && events != [] ==> g == Cards(events)
    ensures g.Placeholders? ==> g.count > 0
    ensures g.Cards? ==> |g.events| > 0
  {
    if isLoading then Placeholders(PlaceholderCount)
    else if |events| == 0 then EmptyState(EmptyHeading(section), EmptyMessage(section))
    else Cards(events)
  }

  /** The state of the events page. */
  class EventsPage {
    const allEvents: seq<Event>
    const parse: DateParser
    /** The single `now` captured when the page mounts. */
    const now: int
    var upcomingFilter: CategoryFilter
    var pastFilter: CategoryFilter
    var isLoading: bool
    var activeSection: Section

    constructor (allEvents: seq<Event>, parse: DateParser, now: int)
      ensures this.allEvents == allEvents && this.parse == parse && this.now == now
      ensures upcomingFilter == All && pastFilter == All
      ensures isLoading && activeSection == UpcomingSection
    {
      this.allEvents := allEvents;
      this.parse := parse;
      this.now := now;
      upcomingFilter := All;
      pastFilter := All;
      isLoading := true;
      activeSection := UpcomingSection;
    }

    function Upcoming(): seq<Event>
      reads this
    {
      UpcomingEvents(allEvents, parse, now, upcomingFilter)
    }

    function Past(): seq<Event>
      reads this
    {
      PastEvents(allEvents, parse, now, pastFilter)
    }

    /** The numbers on the two tabs: how many catalogue events each section selects. */
    function TabCounts(): (counts: (nat, nat))
      reads this
      ensures counts.0 == |UpcomingSelection(allEvents, parse, now, upcomingFilter)|
      ensures counts.1 == |PastSelection(allEvents, parse, now, pastFilter)|
    {
      assert |multiset(Upcoming())| == |multiset(UpcomingSelection(allEvents, parse, now, upcomingFilter))|;
      assert |multiset(Past())| == |multiset(PastSelection(allEvents, parse, now, pastFilter))|;
      (|Upcoming()|, |Past()|)
    }

    function UpcomingGrid(): Grid
      reads this
    {
      RenderEventGrid(isLoading, Upcoming(), UpcomingSection)
    }

    function PastGrid(): Grid
      reads this
    {
      RenderEventGrid(isLoading, Past(), PastSection)
    }

    /** `setUpcomingFilter`: the past section's filter and list are untouched. */
    method SetUpcomingFilter(f: CategoryFilter)
      modifies this
      ensures upcomingFilter == f
      ensures pastFilter == old(pastFilter) && Past() == old(Past())
      ensures isLoading == old(isLoading) && activeSection == old(activeSection)
    {
      upcomingFilter := f;
    }

    /** `setPastFilter`: the upcoming section's filter and list are untouched. */
    method SetPastFilter(f: CategoryFilter)
      modifies this
      ensures pastFilter == f
      ensures upcomingFilter == old(upcomingFilter) && Upcoming() == old(Upcoming())
      ensures isLoading == old(isLoading) && activeSection == old(activeSection)
    {
      pastFilter := f;
    }

    /** The loading timer firing: loading ends and nothing else changes. */
    method FinishLoading()
      modifies this
      ensures !isLoading
      ensures upcomingFilter == old(upcomingFilter) && pastFilter == old(pastFilter)
      ensures activeSection == old(activeSection)
      ensures UpcomingGrid() == RenderEventGrid(false, Upcoming(), UpcomingSection)
    {
      isLoading := false;
    }

    /** `scrollToSection` as far as state goes: the active tab becomes `section`. */
    method ScrollToSection(section: Section)
      modifies this
      ensures activeSection == section
      ensures upcomingFilter == old(upcomingFilter) && pastFilter == old(pastFilter)
      ensures isLoading == old(isLoading)
    {
      activeSection := section;
    }
  }
}
