# Event catalogue and page logic of two student-society websites

This project models the small amount of real logic in the websites of a
chemical-engineering society and a matcha society, and proves properties of
that model in Dafny. The logic covered is:

- the events page, which splits the event catalogue at one captured `now`
  into upcoming events (earliest first) and past events (latest first), and
  gives each section its own category filter, filter buttons and card grid;
- the home page's two-week window of coming events and its carousel;
- the event card's fallbacks for the date, badge colour and image;
- team selection on the team page;
- breadcrumb derivation;
- the contact form's state;
- the defaults of the SEO head.

Each source file is one module:

- `Types`: the records: `Event` with its closed `Category`, `Member`, `TeamCategory`, `FilterButtonData`, `Sponsor` with its closed `SponsorTier`, and string-or-number ids.
- `Events`: the events page. Pure functions give the two sections, the filter buttons and the grid. Class `EventsPage` holds the filters, the loading flag and the active tab.
- `Home`: the home page's `upcomingEventsNextTwoWeeks`, its carousel settings and the carousel-or-fallback choice.
- `Card`: the event card.
- `Team`: the team page. Class `TeamPage` holds the selected team.
- `Crumbs`: `getBreadcrumbs` and the rendering of each crumb.
- `Contact`: the contact form. Class `ContactPage` holds its four fields.
- `Seo`: the `SEOHead` component.
- `Seqs`, `Wrappers`: `Array.prototype.filter`, `Array.prototype.sort` (ascending and stable), the subsequence relation, and `Option`.

How the model represents the source:

- **Timestamps and dates.** Timestamps are integers (milliseconds). `new Date(s)` is a parameter `parse: string -> Option<int>`, where `None` stands for the NaN of an invalid date. In JavaScript both `>=` and `<` with NaN are false, so an event whose date does not parse is in neither section and never in the home page's window.
- **Sorting.** `Array.sort` with a numeric comparator is stable. It is modelled as a stable insertion sort. The descending sort with comparator `b - a` is the same sort on the negated key.
- **Formatting.** The date-fns `format` call is a parameter `format: int -> string`.
- **Email validity.** The browser's check of the `type="email"` input is a parameter `validEmail: string -> bool`.
- **The home page's window.** It is not widened to the end of the boundary day: both bounds are exact timestamps (`Home.WindowEndIsExact`).
- **Names.** The `label` field of `FilterButtonData` is called `caption`, because `label` is a reserved word in Dafny.

## Model

| member | source | states |
|---|---|---|
| `Types.ParseCategory` | matcha_website/matchasoc/src/types.ts:31 | a string is read as category `c` exactly when it is `c`'s label, so exactly the seven labels are categories and any other string (such as "Zephyr") is rejected |
| `Types.LabelInjective` | matcha_website/matchasoc/src/types.ts:31 | distinct categories have distinct labels |
| `Types.ParseTier` | matcha_website/matchasoc/src/types.ts:40 | exactly the three labels Major, Supporting and Other are sponsor tiers |
| `Events.Rank` | matcha_website/matchasoc/src/pages/EventsPage.tsx:10 | every category has a position in `EVENT_CATEGORIES` and is found there |
| `Events.EventCategoriesComplete` | matcha_website/matchasoc/src/pages/EventsPage.tsx:10 | `EVENT_CATEGORIES` lists all seven categories, each exactly once |
| `Seqs.Filter` | matcha_website/matchasoc/src/pages/EventsPage.tsx:26-27 | `filter` keeps an element iff it is in the input and satisfies the predicate, and never grows the sequence |
| `Seqs.FilterCount` | matcha_website/matchasoc/src/pages/EventsPage.tsx:26-27 | `filter` keeps each satisfying element exactly as many times as it occurs, and no other element |
| `Seqs.FilterIsSubsequence` | CEUS_website-main/CEUS/src/pages/HomePage.tsx:64-68 | the result of `filter` is a subsequence of its input, in the input's order |
| `Seqs.FilterKeepsAll` | matcha_website/matchasoc/src/pages/EventsPage.tsx:27 | a predicate that every element satisfies (the `'All'` sentinel) returns the input unchanged |
| `Seqs.FilterIdempotent` | matcha_website/matchasoc/src/pages/EventsPage.tsx:27 | filtering twice by the same predicate equals filtering once |
| `Seqs.Neg` | matcha_website/matchasoc/src/pages/EventsPage.tsx:35 | the ascending comparator on the negated key, `neg(a) - neg(b)`, equals the descending comparator `key(b) - key(a)` |
| `Seqs.Insert` | matcha_website/matchasoc/src/pages/EventsPage.tsx:28 | inserting adds exactly the one element |
| `Seqs.InsertSorted` | matcha_website/matchasoc/src/pages/EventsPage.tsx:28 | inserting into a sorted sequence keeps it sorted |
| `Seqs.SortedCons` | matcha_website/matchasoc/src/pages/EventsPage.tsx:28 | a sorted tail with a smaller head is sorted |
| `Seqs.SortBy` | matcha_website/matchasoc/src/pages/EventsPage.tsx:28 | the sort returns a permutation of its input that is non-decreasing by key |
| `Seqs.FilterInsert` | matcha_website/matchasoc/src/pages/EventsPage.tsx:28 | inserting into a sorted sequence places the new element, among those of its key class, before every element already there |
| `Seqs.SortByMembers` | matcha_website/matchasoc/src/pages/EventsPage.tsx:28 | sorting neither adds nor drops an element |
| `Seqs.SortByStable` | matcha_website/matchasoc/src/pages/EventsPage.tsx:28 | stability: within any class of equal keys the sorted order is the input order |
| `Events.UpcomingEvents` | matcha_website/matchasoc/src/pages/EventsPage.tsx:24-29 | the upcoming list holds exactly the events with a parseable date `>= now` and the filter's category, is a permutation of that selection, and is non-decreasing by date |
| `Events.PastEvents` | matcha_website/matchasoc/src/pages/EventsPage.tsx:31-36 | the past list holds exactly the events with a parseable date `< now` and the filter's category, is a permutation of that selection, and is ascending by negated date |
| `Events.SelectionCounts` | matcha_website/matchasoc/src/pages/EventsPage.tsx:24-36 | a filter, filter and sort pipeline holds each doubly-selected event exactly as often as the catalogue, and nothing else |
| `Events.UpcomingEventsCounts` | matcha_website/matchasoc/src/pages/EventsPage.tsx:24-29 | upcoming events are exactly the catalogue's events with a parseable date `>= now` and the filter's category, each with its catalogue multiplicity (so the list is a permutation of the filtered input) |
| `Events.UpcomingEventsSound` | matcha_website/matchasoc/src/pages/EventsPage.tsx:26-27 | every upcoming event has a parseable date `>= now` and matches the filter |
| `Events.UpcomingEventsSorted` | matcha_website/matchasoc/src/pages/EventsPage.tsx:28 | upcoming events are non-decreasing by date |
| `Events.PastEventsCounts` | matcha_website/matchasoc/src/pages/EventsPage.tsx:31-36 | past events are exactly the catalogue's events with a parseable date `< now` and the filter's category, each with its catalogue multiplicity |
| `Events.PastEventsSound` | matcha_website/matchasoc/src/pages/EventsPage.tsx:33-34 | every past event has a parseable date `< now` and matches the filter |
| `Events.PastEventsSorted` | matcha_website/matchasoc/src/pages/EventsPage.tsx:35 | past events are non-increasing by date |
| `Events.SectionsStable` | matcha_website/matchasoc/src/pages/EventsPage.tsx:28-35 | in both sections, events with equal timestamps keep their order in the filtered input |
| `Events.PartitionCoverage` | matcha_website/matchasoc/src/pages/EventsPage.tsx:22-36 | with both filters at `'All'` and one `now`, the two sections together hold each event with a parseable date exactly as often as the catalogue, and an unparseable one not at all |
| `Events.PartitionDisjoint` | matcha_website/matchasoc/src/pages/EventsPage.tsx:22-36 | no event is in both sections, and an event whose date does not parse is in neither |
| `Events.CategoryFilterSpec` | matcha_website/matchasoc/src/pages/EventsPage.tsx:27 | `'All'` passes the section unchanged, a category keeps exactly its events, and the filter is idempotent |
| `Events.CategoryButtons` | matcha_website/matchasoc/src/pages/EventsPage.tsx:61-73 | at most one button per listed category; each is a category's button, labelled with it, active iff its filter is current |
| `Events.CategoryButtonsSound` | matcha_website/matchasoc/src/pages/EventsPage.tsx:61-73 | each category button belongs to a listed category that occurs in the data, is labelled with it and is active iff it is the current filter |
| `Events.CategoryButtonsComplete` | matcha_website/matchasoc/src/pages/EventsPage.tsx:61-73 | every listed category that occurs in the data gets its button |
| `Events.CategoryButtonsOrdered` | matcha_website/matchasoc/src/pages/EventsPage.tsx:61-73 | category buttons follow the order of the category list |
| `Events.RenderFilterButtons` | matcha_website/matchasoc/src/pages/EventsPage.tsx:51-75 | 'All' first, at most 8 buttons, every later one a labelled category button, each active iff its filter is current |
| `Events.RenderFilterButtonsSound` | matcha_website/matchasoc/src/pages/EventsPage.tsx:51-75 | the `'All'` button is always first; a button is active iff its filter is current; a category button's category occurs in the whole catalogue |
| `Events.RenderFilterButtonsComplete` | matcha_website/matchasoc/src/pages/EventsPage.tsx:61-63 | a category's button is offered iff some event of the whole catalogue has that category, whatever the sections and filters |
| `Events.RenderFilterButtonsOrdered` | matcha_website/matchasoc/src/pages/EventsPage.tsx:56-73 | the buttons follow `'All'`, then the `EVENT_CATEGORIES` order, so none repeats |
| `Events.RenderEventGrid` | matcha_website/matchasoc/src/pages/EventsPage.tsx:77-131 | loading gives 6 placeholders whatever the events; otherwise no events give the section's own empty state, and events give one card per event in order; the grid is never blank |
| `Events.EventsPage.constructor` | matcha_website/matchasoc/src/pages/EventsPage.tsx:13-22 | both filters start at `'All'`, loading is on, the upcoming tab is active, and `now` is captured once |
| `Events.EventsPage.TabCounts` | matcha_website/matchasoc/src/pages/EventsPage.tsx:171-182 | each tab count is the number of catalogue events its section selects |
| `Events.EventsPage.SetUpcomingFilter` | matcha_website/matchasoc/src/pages/EventsPage.tsx:13-14 | changes the upcoming filter and leaves the past filter and the past list unchanged |
| `Events.EventsPage.SetPastFilter` | matcha_website/matchasoc/src/pages/EventsPage.tsx:13-14 | changes the past filter and leaves the upcoming filter and the upcoming list unchanged |
| `Events.EventsPage.FinishLoading` | matcha_website/matchasoc/src/pages/EventsPage.tsx:39-42 | the timer turns loading off and changes nothing else |
| `Events.EventsPage.ScrollToSection` | matcha_website/matchasoc/src/pages/EventsPage.tsx:45-49 | the active tab becomes the chosen section and nothing else changes |
| `Home.NextTwoWeeks` | CEUS_website-main/CEUS/src/pages/HomePage.tsx:64-68 | the selection holds exactly the catalogue's events in the window and is no longer than the catalogue |
| `Home.NextTwoWeeksMembers` | CEUS_website-main/CEUS/src/pages/HomePage.tsx:60-68 | an event is selected iff its date parses and lies in `[now, now + 14 days]`, both bounds inclusive; an unparseable date is never selected |
| `Home.NextTwoWeeksOrder` | CEUS_website-main/CEUS/src/pages/HomePage.tsx:64-68 | the selection is a subsequence of the catalogue in catalogue order, not re-sorted, with each event's multiplicity |
| `Home.WindowEndIsExact` | CEUS_website-main/CEUS/src/pages/HomePage.tsx:60-67 | the window ends at an exact instant: `now` and `now + 14 days` are in, one millisecond later is out |
| `Home.WindowExample` | CEUS_website-main/CEUS/src/pages/HomePage.tsx:60-68 | with `now` at 2025-03-10, an event of 2025-03-20 is taken and one of 2025-03-25 is left out |
| `Home.EventSettings` | CEUS_website-main/CEUS/src/pages/HomePage.tsx:72-101 | 3 slides by default, 2 at breakpoint 1024 and 1 at 600; at each width `infinite` holds iff the count exceeds the slides shown |
| `Home.Slides` | CEUS_website-main/CEUS/src/pages/HomePage.tsx:196-206 | one slide per event in order, showing its title and raw date string |
| `Home.RenderEventsSection` | CEUS_website-main/CEUS/src/pages/HomePage.tsx:193-222 | a carousel iff the window is non-empty, with one slide per selected event and settings for that count; otherwise the fallback message with its link to `/events` |
| `Home.RenderEventsSectionSpec` | CEUS_website-main/CEUS/src/pages/HomePage.tsx:193-222 | the carousel shows iff some event is in the window, with settings for that count and one slide per selected event; otherwise the fallback links to `/events` |
| `Card.FormattedDate` | matcha_website/matchasoc/src/components/EventCard.tsx:14-18 | an unparseable date displays `'Invalid Date'`, a parseable one its formatted value |
| `Card.CategoryColor` | matcha_website/matchasoc/src/components/EventCard.tsx:21-32 | always a class of the table; the listed class for a listed name, the gray `'Other'` class for any other string |
| `Card.CategoryColorListed` | matcha_website/matchasoc/src/components/EventCard.tsx:21-30 | each of the seven categories gets its listed colour class |
| `Card.CategoryColorTotal` | matcha_website/matchasoc/src/components/EventCard.tsx:31 | any string that names no category gets the `'Other'` class, and distinct categories get distinct classes |
| `Card.ImageSrc` | matcha_website/matchasoc/src/components/EventCard.tsx:39 | the image source is never empty and is `imageUrl` when that is non-empty |
| `Card.RenderCard` | matcha_website/matchasoc/src/components/EventCard.tsx:34-98 | the poster is never empty, the title is the heading and alt text, the badge is the category in that category's own class of the colour table, and the description and Facebook link are the event's |
| `Card.RenderCardSpec` | matcha_website/matchasoc/src/components/EventCard.tsx:34-98 | the badge text is the category verbatim, its class is that category's own entry of the colour table, the action link is `facebookEventLink`, and the image falls back to `/images/events/matachaimages.jpg` and the date to `'Invalid Date'` |
| `Team.InitialCategory` | matcha_website/matchasoc/src/pages/TeamPage.tsx:12 | the first filter label when there is one and it is non-empty, else `'Executives'`; never empty |
| `Team.FindTeam` | matcha_website/matchasoc/src/pages/TeamPage.tsx:16 | `find` returns nothing iff no team has the name, and otherwise the first team with it |
| `Team.DisplayedMembers` | matcha_website/matchasoc/src/pages/TeamPage.tsx:15-18 | no team with the selected name gives no members; any members shown belong to a team with that name |
| `Team.DisplayedMembersSpec` | matcha_website/matchasoc/src/pages/TeamPage.tsx:15-18 | the members shown are those of the first team whose name equals the selection |
| `Team.DisplayedMembersAbsent` | matcha_website/matchasoc/src/pages/TeamPage.tsx:17-18 | no team with the selected name gives an empty member list |
| `Team.Buttons` | matcha_website/matchasoc/src/pages/TeamPage.tsx:46-53 | one button per filter label in order, active iff its label equals the selection |
| `Team.RenderMembers` | matcha_website/matchasoc/src/pages/TeamPage.tsx:57-67 | non-empty members give one card per member in order; none give the "No members found" message naming the selection |
| `Team.TeamPage.constructor` | matcha_website/matchasoc/src/pages/TeamPage.tsx:12-13 | the selection starts at the initial category |
| `Team.TeamPage.HandleFilterClick` | matcha_website/matchasoc/src/pages/TeamPage.tsx:36-38 | the selection becomes the clicked label and the shown members are that team's |
| `Team.SiteDataOpensOnExecutives` | matcha_website/matchasoc/src/data/teamData.ts:17-24 | on the site's own team data the page opens on "Executives" with its six members |
| `Crumbs.GetBreadcrumbs` | matcha_website/matchasoc/src/components/Breadcrumbs.tsx:64-112 | one or two crumbs starting at "Home", with no crumb but the last current |
| `Crumbs.GetBreadcrumbsCases` | matcha_website/matchasoc/src/components/Breadcrumbs.tsx:64-112 | `/` gives a single current "Home" crumb with no link; each of the six listed pages gives a link home and its current label; any other path gives only the link home |
| `Crumbs.GetBreadcrumbsShape` | matcha_website/matchasoc/src/components/Breadcrumbs.tsx:64-112 | a trail has 1 or 2 crumbs and starts with "Home"; only the last can be current, and it is current iff the path is `/` or a listed page |
| `Crumbs.RenderNode` | matcha_website/matchasoc/src/components/Breadcrumbs.tsx:39-55 | current gives an `aria-current` span; otherwise a non-empty href gives a link to it; otherwise a plain span; the label is always shown |
| `Crumbs.RenderBreadcrumbs` | matcha_website/matchasoc/src/components/Breadcrumbs.tsx:22-57 | one item per crumb in order, with a separator before every crumb but the first |
| `Crumbs.PageTrailRenders` | matcha_website/matchasoc/src/components/Breadcrumbs.tsx:73-107 | a listed page renders as a link home, a separator and the page's current span |
| `Contact.WithField` | matcha_website/matchasoc/src/pages/ContactPage.tsx:17-21 | a change sets the named field to the value and leaves the other three as they were |
| `Contact.SubmitBlocked` | matcha_website/matchasoc/src/pages/ContactPage.tsx:113-166 | the browser blocks the submit when any one of the four required fields is empty or the email field holds an invalid address |
| `Contact.ClearedFormCannotResubmit` | matcha_website/matchasoc/src/pages/ContactPage.tsx:34-39 | the cleared form has four empty fields, so the required inputs block a second submit until refilled |
| `Contact.FillingEveryFieldEnablesSubmit` | matcha_website/matchasoc/src/pages/ContactPage.tsx:113-166 | four non-empty changes in input order, with a valid email, make the form submittable and hold exactly the values typed |
| `Contact.ContactPage.constructor` | matcha_website/matchasoc/src/pages/ContactPage.tsx:8-13 | all four fields start empty |
| `Contact.ContactPage.HandleChange` | matcha_website/matchasoc/src/pages/ContactPage.tsx:16-22 | the named field takes the value; the other three are unchanged |
| `Contact.ContactPage.HandleSubmit` | matcha_website/matchasoc/src/pages/ContactPage.tsx:25-40 | needs every field non-empty and a valid email, then clears all four whatever they held |
| `Seo.OrElse` | matcha_website/matchasoc/src/components/SEOHead.tsx:37-40 | `value \|\| fallback`: an absent or empty value falls back |
| `Seo.Render` | matcha_website/matchasoc/src/components/SEOHead.tsx:36-124 | title, description, image, url and canonical url are never empty; robots and googlebot agree; the page type is the given one, `website` by default |
| `Seo.TitleSpec` | matcha_website/matchasoc/src/components/SEOHead.tsx:36 | a non-empty title is followed by ` \| CEUS - Chemical Engineering Undergraduate Society`; otherwise the bare site name |
| `Seo.DefaultsSpec` | matcha_website/matchasoc/src/components/SEOHead.tsx:37-40 | description, image and url fall back to their defaults when absent or empty; canonical falls back to the page url; none is ever empty |
| `Seo.RobotsSpec` | matcha_website/matchasoc/src/components/SEOHead.tsx:79-80 | robots and googlebot agree and are `noindex, nofollow` iff `noIndex` is set, which it is not by default |
| `Seo.JoinSnoc` | matcha_website/matchasoc/src/components/SEOHead.tsx:76 | joining one more keyword appends `', '` and the keyword |
| `Seo.KeywordsSpec` | matcha_website/matchasoc/src/components/SEOHead.tsx:76 | the keywords tag exists iff there are keywords, and holds them joined by `', '` |
| `Seo.TagMeta` | matcha_website/matchasoc/src/components/SEOHead.tsx:112-114 | one `article:tag` per tag, in order |
| `Seo.TypedMetaSpec` | matcha_website/matchasoc/src/components/SEOHead.tsx:106-124 | article tags appear only for articles and end with the tags in order; event tags appear only for events, at most two: a non-empty `publishedTime` gives the first, `event:start_time`, and a non-empty `modifiedTime` gives an `event:end_time`; each is absent when its time is absent or empty |
| `Seo.StructuredDataSpec` | matcha_website/matchasoc/src/components/SEOHead.tsx:43-69 | supplied structured data is used as is; otherwise the default organisation, whose description is the page description |

## Left out

- Date parsing and formatting (`new Date`, date-fns `isValid` and `format`): these become the parameters `parse` and `format`. Time zones, calendar arithmetic and the static event fixture are not modelled.
- `Home.NextTwoWeeksMembers`: the window end is `now + 14 * 24 h` in milliseconds. The source reads the clock a second time and calls `setDate` on that second reading in local time, with the day of the month taken from the first reading. When the two readings fall on the same day, the end differs from the model's by milliseconds, or by an hour across a daylight-saving change. When they fall on different days, the end moves by a day. Across a month end it moves by weeks: a first reading of 31 January 23:59:59.999 and a second of 1 February put the end at 17 March.
- Numeric ids are integers; JavaScript numbers are floating point.
- `Card.CategoryColorTotal`: lookups of names inherited by every JavaScript object (like `"constructor"`) are not modelled. The function is only called with event categories.
- The image `onError` swap, the Slider's own behaviour, GSAP animations, `scrollIntoView`, the 500 ms timer's duration, `console.log` and `alert`: DOM, timing and side effects.
- React `key` strings and card animation delays: rendering details only.
- `Contact.ContactPage.HandleChange`: the field name is one of the four input names. A change event from an element with any other `name` would add a key; no such element exists.
- The constant meta and link tags of the SEO head, plus `og:title`, `og:description` and `twitter:*` (which repeat the modelled title, description and image values); `JSON.stringify` of the structured data.
- The sponsor modal, navigation bar, filter-button and member-card components, image wrapper, static pages, layout and 3D models: markup, styling or animation with no logic of their own.
