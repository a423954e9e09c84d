/** The routing logic of `src/components/Header.jsx`: when the back button shows, where it
    leads, and the breadcrumb trail for a project route. The router's `navigate` becomes the
    value `BackAction` returns. */
module Header {
  import opened Common
  import opened Text
  import opened AppState

  const ProjectPrefix := "/project/"
  const DayMarker := "/day/"

  /** `showBackButton`. */
  predicate ShowBackButton(path: string) { path != "/" }

  /** What `handleBack` does: navigate to a path, go back one history step, or throw (reading
      `.split` of `undefined`). */
  datatype Navigation = GoTo(path: string) | GoBack | Throws

  /** `path.split('/project/')[1].split('/day')[0]`. */
  function ProjectIdOf(path: string): string
    requires Contains(path, ProjectPrefix)
  {
    Between(path, ProjectPrefix, "/day")
  }

  /** `s.split(open)[1].split(close)[0]`. */
  function Between(s: string, open: string, close: string): string
    requires open != [] && close != [] && Contains(s, open)
  {
    Split(Split(s, open)[1], close)[0]
  }

  /** The text after the first `open`. */
  function After(s: string, open: string): string
    requires Contains(s, open)
  {
    s[IndexOf(s, open).value + |open|..]
  }

  /** `handleBack`: a day route goes to its project's calendar, any other project route to the
      project list, anything else back in history. A day route without `/project/` in it has
      no second part to split, and the handler throws. */
  function BackAction(path: string): (r: Navigation)
    ensures Contains(path, DayMarker) && !Contains(path, ProjectPrefix) <==> r.Throws?
    ensures r.GoBack? <==> !Contains(path, DayMarker) && !StartsWith(path, ProjectPrefix)
    ensures r == GoTo("/") <==> !Contains(path, DayMarker) && StartsWith(path, ProjectPrefix)
  {
    if Contains(path, DayMarker) then
      if Contains(path, ProjectPrefix) then GoTo(ProjectPrefix + ProjectIdOf(path)) else Throws
    else if StartsWith(path, ProjectPrefix) then GoTo("/")
    else GoBack
  }

  /** The text of `t` before the first `sep`, or all of `t` when there is none. */
  function UpTo(t: string, sep: string): (r: string)
    ensures |r| <= |t| && r == t[..|r|]
  {
    match IndexOf(t, sep)
    case None => t
    case Some(j) => t[..j]
  }

  /** The id `handleBack` extracts is the text after the first `/project/`, cut at the next
      `/project/` (if any) and then at the first `/day`; so it is a prefix of what follows the
      first `/project/` and contains no `/day`. */
  lemma {:induction false} ProjectIdBetween(path: string)
    requires Contains(path, ProjectPrefix)
    ensures ProjectIdOf(path) == UpTo(UpTo(After(path, ProjectPrefix), ProjectPrefix), "/day")
    ensures !Contains(ProjectIdOf(path), "/day")
    ensures var rest := After(path, ProjectPrefix); ProjectIdOf(path) == rest[..|ProjectIdOf(path)|]
  {
    BetweenIsSlice(path, ProjectPrefix, "/day");
  }

  lemma {:induction false} BetweenIsSlice(s: string, open: string, close: string)
    requires open != [] && close != [] && Contains(s, open)
    ensures Between(s, open, close) == UpTo(UpTo(After(s, open), open), close)
    ensures !Contains(Between(s, open, close), close)
  {
    var rest := After(s, open);
    var piece := Split(s, open)[1];
    SplitSecond(s, open);
    SplitFirst(rest, open);
    assert piece == UpTo(rest, open);
    SplitFirst(piece, close);
    if Contains(piece, close) {
      PrefixAvoidsSeparator(piece, close);
    }
  }

  /** A day route leads to its project's calendar page. */
  lemma {:induction false} DayRouteGoesToProject(path: string)
    requires Contains(path, DayMarker) && Contains(path, ProjectPrefix)
    ensures BackAction(path) == GoTo(ProjectPrefix + ProjectIdOf(path))
    ensures BackAction(path).path[..|ProjectPrefix|] == ProjectPrefix
  {
  }

  /** One element of the breadcrumb trail: a link, or the current page's plain label. */
  datatype Crumb = Link(to: string, text: string) | Current(text: string)

  /** `getBreadcrumbs`: nothing on the home page, outside project routes, or without a
      current project; otherwise "Projects", then the project (as a link when a day is open),
      then "Day View" on a day route. */
  function Breadcrumbs(path: string, current: Option<Project>): (r: Option<seq<Crumb>>)
    ensures r.None? <==> path == "/" || !StartsWith(path, ProjectPrefix) || current.None?
    ensures r.Some? ==> |r.value| >= 2 && r.value[0] == Link("/", "Projects")
    ensures r.Some? ==> (|r.value| == 3 <==> Contains(path, DayMarker))
    ensures r.Some? ==> r.value[|r.value| - 1]
                          == if Contains(path, DayMarker) then Current("Day View") else Current(current.value.name)
  {
    if path == "/" then None
    else if StartsWith(path, ProjectPrefix) && current.Some? then
      var p := current.value;
      if Contains(path, DayMarker) then
        Some([Link("/", "Projects"), Link(ProjectPrefix + p.id, p.name), Current("Day View")])
      else
        Some([Link("/", "Projects"), Current(p.name)])
    else None
  }

  /** The breadcrumbs and the back button agree on the project: on a day route of the current
      project, the project crumb links where the back button leads. */
  lemma {:induction false} CrumbMatchesBack(path: string, p: Project)
    requires StartsWith(path, ProjectPrefix) && Contains(path, DayMarker)
    requires Contains(path, ProjectPrefix) && ProjectIdOf(path) == p.id
    ensures Breadcrumbs(path, Some(p)).Some?
    ensures Breadcrumbs(path, Some(p)).value[1] == Link(BackAction(path).path, p.name)
  {
  }

  /** A path starting with the prefix contains it, so every project route has an id. */
  lemma StartsWithContains(s: string, prefix: string)
    requires StartsWith(s, prefix)
    ensures Contains(s, prefix)
  {
    OccursContains(s, prefix, 0);
  }
}
