/**
 * The team page: a selected team name, initially the first filter button's
 * label; the members shown are those of the first team with that name, and
 * an empty list shows a "No members found" message instead.
 */
module Team {
  import opened Wrappers
  import opened Types

  const DefaultCategory := "Executives"

  /** `mainFilterCategories[0]?.label || 'Executives'`. */
  function InitialCategory(filters: seq<FilterButtonData>): (selected: string)
    ensures selected != ""
    ensures |filters| > 0 && filters[0].caption != "" ==> selected == filters[0].caption
    ensures |filters| == 0 || filters[0].caption == "" ==> selected == DefaultCategory
  {
    if |filters| > 0 && filters[0].caption != "" then filters[0].caption else DefaultCategory
  }

  /** `teams.find(team => team.name === name)`. */
  function FindTeam(teams: seq<TeamCategory>, name: string): (found: Option<TeamCategory>)
    ensures found.None? <==> forall t :: t in teams ==> t.name != name
    ensures found.Some? ==> exists i :: 0 <= i < |teams| && teams[i] == found.value && teams[i].name == name
                                        && forall j :: 0 <= j < i ==> teams[j].name != name
  {
    if teams == [] then None
    else if teams[0].name == name then Some(teams[0])
    else
      var rest := FindTeam(teams[1..], name);
      assert teams == [teams[0]] + teams[1..];
      if rest.Some? then
        var i :| 0 <= i < |teams[1..]| && teams[1..][i] == rest.value && teams[1..][i].name == name
                 && forall j :: 0 <= j < i ==> teams[1..][j].name != name;
        assert forall j :: 0 < j <= i ==> teams[j] == teams[1..][j - 1];
        assert teams[i + 1] == rest.value && forall j :: 0 <= j < i + 1 ==> teams[j].name != name;
        rest
      else rest
  }

  /** `displayedMembers`: the found team's members, or none. */
  function DisplayedMembers(teams: seq<TeamCategory>, selected: string): (members: seq<Member>)
    ensures (forall t :: t in teams ==> t.name != selected) ==> members == []
    ensures members != [] ==> exists t :: t in teams && t.name == selected && t.members == members
  {
    match FindTeam(teams, selected)
    case Some(t) => t.members
    case None => []
  }

  /**
   * The members shown are those of the first team named `selected`, and
   * there are none when no team has that name.
   */
  lemma DisplayedMembersSpec(teams: seq<TeamCategory>, selected: string, i: int)
    requires 0 <= i < |teams| && teams[i].name == selected
    requires forall j :: 0 <= j < i ==> teams[j].name != selected
    ensures DisplayedMembers(teams, selected) == teams[i].members
  {
    var found := FindTeam(teams, selected);
    assert teams[i] in teams;
    var k :| 0 <= k < |teams| && teams[k] == found.value && teams[k].name == selected
             && forall j :: 0 <= j < k ==> teams[j].name != selected;
    assert k == i;
  }

  lemma DisplayedMembersAbsent(teams: seq<TeamCategory>, selected: string)
    requires forall t :: t in teams ==> t.name != selected
    ensures DisplayedMembers(teams, selected) == []
  {
  }

  /** One `FilterButton` of the team page. */
  datatype TeamButton = TeamButton(text: string, isActive: bool)

  function Buttons(filters: seq<FilterButtonData>, selected: string): (r: seq<TeamButton>)
    ensures |r| == |filters|
    ensures forall i :: 0 <= i < |r| ==> r[i].text == filters[i].caption
    ensures forall i :: 0 <= i < |r| ==> (r[i].isActive <==> filters[i].caption == selected)
  {
    if filters == [] then []
    else [TeamButton(filters[0].caption, filters[0].caption == selected)] + Buttons(filters[1..], selected)
  }

  /** What the member area shows. */
  datatype MemberArea = MemberGrid(cards: seq<Member>) | NoMembers(message: string)

  function NoMembersMessage(selected: string): string
  {
    "No members found for \"" + selected + "\"."
  }

  /** A non-empty member list gives one card per member in order, an empty one the message naming the selection. */
  function RenderMembers(members: seq<Member>, selected: string): (area: MemberArea)
    ensures area.MemberGrid? <==> |members| > 0
    ensures area.MemberGrid? ==> area.cards == members
    ensures area.NoMembers? ==> area.message == NoMembersMessage(selected)
  {
    if |members| > 0 then MemberGrid(members) else NoMembers(NoMembersMessage(selected))
  }

  /** The state of the team page. */
  class TeamPage {
    const teams: seq<TeamCategory>
    const filters: seq<FilterButtonData>
    var selectedCategory: string

    constructor (teams: seq<TeamCategory>, filters: seq<FilterButtonData>)
      ensures this.teams == teams && this.filters == filters
      ensures selectedCategory == InitialCategory(filters)
    {
      this.teams := teams;
      this.filters := filters;
      selectedCategory := InitialCategory(filters);
    }

    function Displayed(): seq<Member>
      reads this
    {
      DisplayedMembers(teams, selectedCategory)
    }

    function View(): (seq<TeamButton>, MemberArea)
      reads this
    {
      (Buttons(filters, selectedCategory), RenderMembers(Displayed(), selectedCategory))
    }

    /** `handleFilterClick`: the selection becomes the clicked label and nothing else changes. */
    method HandleFilterClick(categoryLabel: string)
      modifies this
      ensures selectedCategory == categoryLabel
      ensures Displayed() == DisplayedMembers(teams, categoryLabel)
    {
      selectedCategory := categoryLabel;
    }
  }

  /** The site's own data: one team, "Executives", with its six members. */
  const ExecutiveMembers: seq<Member> := [
    Member(StrId("annieP"), "Annie", "President", Some("/images/team/annie.jpg"), None, None),
    Member(StrId("janetV"), "Janet", "Vice President", Some("/images/team/janet.jpg"), None, None),
    Member(StrId("emilyS"), "Emily", "Secretary", Some("/images/team/emily.jpg"), None, None),
    Member(StrId("denzelT"), "Denzel", "Treasurer", Some("/images/team/denzel.jpg"), None, None),
    Member(StrId("kendrewA"), "Kendrew", "ARC Delegate", Some("/images/team/kendrew.jpg"), None, None),
    Member(StrId("sanW"), "San", "Welfare Officer", Some("/images/team/san.jpg"), None, None)
  ]
  const AllTeams: seq<TeamCategory> := [TeamCategory("Executives", ExecutiveMembers)]
  const MainFilterCategories: seq<FilterButtonData> := [FilterButtonData("executives", "Executives")]

  /** On that data the page opens on "Executives" and shows all six executives. */
  lemma SiteDataOpensOnExecutives()
    ensures InitialCategory(MainFilterCategories) == "Executives"
    ensures DisplayedMembers(AllTeams, InitialCategory(MainFilterCategories)) == ExecutiveMembers
    ensures |DisplayedMembers(AllTeams, InitialCategory(MainFilterCategories))| == 6
  {
    DisplayedMembersSpec(AllTeams, "Executives", 0);
  }
}
