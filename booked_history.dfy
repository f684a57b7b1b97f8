/**
 * The booked-project list: reshaping the answer rows, the search filter over
 * name, unit and site, the load states, and the parameters handed to the
 * details screen.
 */
module BookedHistory {
  import opened Wrappers
  import opened JsText
  import opened JsArray
  import opened Gateway
  import opened AuthContext
  import opened Navigation

  const LoadFailed := "Failed to load projects. Please try again."

  /** A row of the project-list endpoint (a null text field is read as ""). */
  datatype ProjectRow = ProjectRow(
    projectName: string, projectSite: string, unitNo: string, projectId: int, projectPlotidTranid: int)

  /** A list entry: `nos` is the unit number, `fullData` the original row. */
  datatype Project = Project(
    id: int, name: string, site: string, nos: string, projectId: int, projectTranId: int, fullData: ProjectRow)

  function ToProject(row: ProjectRow, id: int): (p: Project)
    ensures p.id == id && p.fullData == row
    ensures p.name == row.projectName && p.site == row.projectSite && p.nos == row.unitNo
    ensures p.projectId == row.projectId && p.projectTranId == row.projectPlotidTranid
  {
    Project(id, row.projectName, row.projectSite, row.unitNo, row.projectId, row.projectPlotidTranid, row)
  }

  /** `data.map((item, index) => ({ id: index + 1, ... }))`. */
  function Transform(rows: seq<ProjectRow>): (ps: seq<Project>)
    ensures |ps| == |rows|
    ensures forall k :: 0 <= k < |rows| ==> ps[k] == ToProject(rows[k], k + 1)
  {
    seq(|rows|, k requires 0 <= k < |rows| => ToProject(rows[k], k + 1))
  }

  /** The list ids are 1, 2, ..., n: all distinct, so every card has its own key. */
  lemma TransformIdsDistinct(rows: seq<ProjectRow>)
    ensures forall k :: 0 <= k < |rows| ==> 1 <= Transform(rows)[k].id <= |rows|
    ensures forall j, k :: 0 <= j < k < |rows| ==> Transform(rows)[j].id < Transform(rows)[k].id
  {
  }

  /** The search predicate of `filteredProjects`. */
  predicate Matches(p: Project, searchText: string) {
    var q := ToLower(searchText);
    Includes(ToLower(p.name), q) || Includes(ToLower(p.nos), q)
    || (p.site != "" && Includes(ToLower(p.site), q))
  }

  /** `field` contains `searchText` at some position, ignoring ASCII case. */
  ghost predicate ContainsIgnoringCase(field: string, searchText: string) {
    exists i :: OccursAt(ToLower(field), ToLower(searchText), i)
  }

  /**
   * A project is kept iff the search text occurs, ignoring case, in its
   * name, in its unit, or in its site when the site is non-empty.
   */
  lemma MatchesIff(p: Project, searchText: string)
    ensures Matches(p, searchText) <==>
              || ContainsIgnoringCase(p.name, searchText)
              || ContainsIgnoringCase(p.nos, searchText)
              || (p.site != "" && ContainsIgnoringCase(p.site, searchText))
  {
    var q := ToLower(searchText);
    IncludesIff(ToLower(p.name), q);
    IncludesIff(ToLower(p.nos), q);
    IncludesIff(ToLower(p.site), q);
  }

  /** A text field that may be null (`None`), read as "" when it is. */
  function OrEmpty(field: Option<string>): (text: string)
    ensures field.Some? ==> text == field.value
    ensures field.None? ==> text == ""
  {
    if field.Some? then field.value else ""
  }

  /** A list entry whose name, site and unit are the given texts. */
  function EntryWith(name: string, site: string, nos: string): Project {
    Project(0, name, site, nos, 0, 0, ProjectRow(name, site, nos, 0, 0))
  }

  /**
   * The search as the filter callback is written, over an entry whose name,
   * unit and site may be null. `None` is the TypeError of `toLowerCase` on
   * null: the name is read unguarded, the unit too once the name fails to
   * match, while a null site is only tested for truthiness. When nothing
   * throws, the answer is the one `Matches` gives with nulls read as "".
   */
  function MatchesAsWritten(name: Option<string>, nos: Option<string>, site: Option<string>, searchText: string)
    : (r: Option<bool>)
    ensures r.None? <==>
              name.None? || (!Includes(ToLower(name.value), ToLower(searchText)) && nos.None?)
    ensures r.Some? ==>
              r.value == Matches(EntryWith(OrEmpty(name), OrEmpty(site), OrEmpty(nos)), searchText)
  {
    var q := ToLower(searchText);
    match name
    case None => None
    case Some(n) =>
      if Includes(ToLower(n), q) then Some(true)
      else
        match nos
        case None => None
        case Some(u) =>
          if Includes(ToLower(u), q) then Some(true)
          else Some(site.Some? && site.value != "" && Includes(ToLower(site.value), q))
  }

  /**
   * A booked row with a null name makes the filter throw for every search
   * text, although the cards render such a name as 'N/A'; with nulls read as
   * "", the same entry is found by its unit.
   */
  lemma NullNameThrows(searchText: string)
    ensures MatchesAsWritten(None, Some("U1"), Some("X"), searchText) == None
    ensures Matches(EntryWith("", "X", "U1"), "u1")
  {
  }

  /** A null unit makes the filter throw as soon as the name does not match. */
  lemma NullUnitThrows()
    ensures MatchesAsWritten(Some("Alpha"), None, Some("X"), "u1") == None
  {
    assert ToLower("u1") == "u1";
    assert ToLower("Alpha") == "alpha";
    NotIncludesWithoutFirst("alpha", "u1");
  }

  function FilterProjects(projects: seq<Project>, searchText: string): (r: seq<Project>)
    ensures |r| <= |projects|
    ensures forall k :: 0 <= k < |r| ==> r[k] in projects && Matches(r[k], searchText)
    ensures forall k :: 0 <= k < |projects| && Matches(projects[k], searchText) ==> projects[k] in r
  {
    Filter(projects, (p: Project) => Matches(p, searchText))
  }

  /** The filtered list keeps the order of the full list. */
  lemma FilterKeepsOrder(projects: seq<Project>, searchText: string)
    ensures IsSubsequence(FilterProjects(projects, searchText), projects)
  {
    FilterIsSubsequence(projects, (p: Project) => Matches(p, searchText));
  }

  /** An empty search keeps every project. */
  lemma EmptySearchKeepsAll(projects: seq<Project>)
    ensures FilterProjects(projects, "") == projects
  {
    forall k | 0 <= k < |projects|
      ensures Matches(projects[k], "")
    {
      assert ToLower("") == "";
      assert "" <= ToLower(projects[k].name);
    }
  }

  /** A concrete search: "u1" picks the first of Alpha/U1 and Beta/U2. */
  lemma SearchExample()
    ensures
      var alpha := Project(1, "Alpha", "X", "U1", 10, 100, ProjectRow("Alpha", "X", "U1", 10, 100));
      var beta := Project(2, "Beta", "Y", "U2", 20, 200, ProjectRow("Beta", "Y", "U2", 20, 200));
      FilterProjects([alpha, beta], "u1") == [alpha]
  {
    var alpha := Project(1, "Alpha", "X", "U1", 10, 100, ProjectRow("Alpha", "X", "U1", 10, 100));
    var beta := Project(2, "Beta", "Y", "U2", 20, 200, ProjectRow("Beta", "Y", "U2", 20, 200));
    assert ToLower("u1") == "u1";
    assert ToLower("U1") == "u1";
    assert Matches(alpha, "u1");
    assert ToLower("U2") == "u2";
    assert ToLower("Y") == "y";
    assert ToLower("Beta") == "beta";
    assert !Includes("", "u1");
    assert !Includes("2", "u1");
    assert !Includes("u2", "u1") by {
      assert "u2"[1] != "u1"[1];
      assert !("u1" <= "u2");
      assert "u2"[1..] == "2";
    }
    NotIncludesWithoutFirst("y", "u1");
    NotIncludesWithoutFirst("beta", "u1");
    assert !Matches(beta, "u1");
    assert [alpha, beta][1..] == [beta];
  }

  /** `handleProjectPress(project)`. */
  function ProjectPress(p: Project): (route: Route)
    ensures route.ProjectDetailsRoute?
    ensures route.details.projectId == p.projectId && route.details.projectTranId == p.projectTranId
    ensures route.details.projectName == p.name && route.details.projectSite == p.site
    ensures route.details.unitNo == p.nos
  {
    ProjectDetailsRoute(ProjectDetailsParams(p.projectId, p.projectTranId, p.name, p.site, p.nos))
  }

  datatype ListView =
    | Spinner
    | ErrorView(message: string)
    | NoProjectsFound
    | Cards(cards: seq<Project>)

  class BookedHistoryScreen {
    const mobile: string
    var searchText: string
    var projects: seq<Project>
    var loading: bool
    var error: Option<string>

    /** `mobile` is the session number (`mobile || ''`), read when the screen is created. */
    constructor (session: SessionStore)
      ensures mobile == MobileOf(session.authData)
      ensures searchText == "" && projects == [] && loading && error == None
    {
      mobile := MobileOf(session.authData);
      searchText := "";
      projects := [];
      loading := true;
      error := None;
    }

    /**
     * The fetch effect, with `response` the gateway's answer. It runs only
     * when the session number is non-empty; otherwise the screen stays loading.
     */
    method Load(response: Fetch<ProjectRow>)
      modifies this
      ensures mobile == "" ==>
                loading == old(loading) && projects == old(projects) && error == old(error)
      ensures mobile != "" ==> !loading
      ensures mobile != "" && response.Returned? ==>
                projects == Transform(response.rows) && error == old(error)
      ensures mobile != "" && response.Thrown? ==>
                projects == old(projects) && error == Some(LoadFailed)
      ensures searchText == old(searchText)
      ensures mobile != "" && response == Returned([]) && old(error) == None ==> Render() == NoProjectsFound
    {
      if mobile != "" {
        match response {
          case Returned(rows) =>
            if |rows| > 0 {
              projects := Transform(rows);
            } else {
              projects := [];
            }
          case Thrown =>
            error := Some(LoadFailed);
        }
        loading := false;
      }
    }

    method SetSearchText(text: string)
      modifies this
      ensures searchText == text
      ensures projects == old(projects) && loading == old(loading) && error == old(error)
    {
      searchText := text;
    }

    function FilteredProjects(): (r: seq<Project>)
      reads this
      ensures IsSubsequence(r, projects)
      ensures forall k :: 0 <= k < |r| ==> Matches(r[k], searchText)
      ensures forall k :: 0 <= k < |projects| && Matches(projects[k], searchText) ==> projects[k] in r
      ensures searchText == "" ==> r == projects
    {
      FilterKeepsOrder(projects, searchText);
      EmptySearchKeepsAll(projects);
      FilterProjects(projects, searchText)
    }

    /** The render branches, checked in order: loading, error, empty filtered list, cards. */
    function Render(): (v: ListView)
      reads this
      ensures loading ==> v == Spinner
      ensures !loading && error.Some? ==> v == ErrorView(error.value)
      ensures !loading && error.None? ==> (v == NoProjectsFound <==> FilteredProjects() == [])
      ensures !loading && error.None? && FilteredProjects() != [] ==> v == Cards(FilteredProjects())
      ensures v.Cards? ==> v.cards == FilteredProjects() && v.cards != []
    {
      if loading then Spinner
      else if error.Some? then ErrorView(error.value)
      else
        var shown := FilteredProjects();
        if |shown| > 0 then Cards(shown) else NoProjectsFound
    }
  }

  /** An empty answer shows the empty state, not the error state. */
  lemma EmptyAnswerShowsEmptyState(s: BookedHistoryScreen)
    requires !s.loading && s.error == None && s.projects == []
    ensures s.Render() == NoProjectsFound
  {
  }
}
