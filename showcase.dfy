/** The public showcase of the company's own projects: a table of project
    cards with a category and a publication status. Only active cards are
    listed, newest first. */
module Portfolio {
  import opened Common

  datatype Category = Web | Mobile | Cloud

  function CategoryName(c: Category): string {
    match c
    case Web => "Web"
    case Mobile => "Mobile"
    case Cloud => "Cloud"
  }

  function ParseCategory(s: string): (r: Option<Category>)
    ensures r.Some? ==> CategoryName(r.value) == s
    ensures r.None? ==> forall c: Category :: CategoryName(c) != s
  {
    if s == "Web" then Some(Web)
    else if s == "Mobile" then Some(Mobile)
    else if s == "Cloud" then Some(Cloud)
    else None
  }

  datatype Status = Active | Completed | Draft

  function StatusName(s: Status): string {
    match s
    case Active => "Active"
    case Completed => "Completed"
    case Draft => "Draft"
  }

  function ParseStatus(s: string): (r: Option<Status>)
    ensures r.Some? ==> StatusName(r.value) == s
    ensures r.None? ==> forall t: Status :: StatusName(t) != s
  {
    if s == "Active" then Some(Active)
    else if s == "Completed" then Some(Completed)
    else if s == "Draft" then Some(Draft)
    else None
  }

  /** Every category and status name parses back. */
  lemma NamesRoundTrip(c: Category, s: Status)
    ensures ParseCategory(CategoryName(c)) == Some(c)
    ensures ParseStatus(StatusName(s)) == Some(s)
  {
  }

  const DefaultColor: string := "from-green-500 to-emerald-600"

  /** A stored card. Category and status are strings: an update does not run
      the enum checks, so any string can be stored there. */
  datatype Project = Project(
    title: string,
    description: string,
    features: seq<string>,
    techStack: seq<string>,
    category: string,
    icon: string,
    color: string,
    liveUrl: Option<string>,
    status: string)

  datatype ProjectBody = ProjectBody(
    title: Option<string>,
    description: Option<string>,
    features: Option<seq<string>>,
    techStack: Option<seq<string>>,
    category: Option<string>,
    icon: Option<string>,
    color: Option<string>,
    liveUrl: Option<string>,
    status: Option<string>)

  /** `new Project(body).save()`: the title is trimmed and must then be
      non-empty; description, icon and a category among Web, Mobile and
      Cloud are required; the status must be Active, Completed or Draft and
      defaults to Active; the color has its default. */
  function NewProject(b: ProjectBody): (r: Option<Project>)
    ensures r.Some? <==>
              && b.title.Some? && Trim(b.title.value) != ""
              && Truthy(b.description) && Truthy(b.icon)
              && b.category.Some? && ParseCategory(b.category.value).Some?
              && (b.status.None? || ParseStatus(b.status.value).Some?)
    ensures r.Some? ==> r.value.title == Trim(b.title.value) && r.value.title != ""
    ensures r.Some? ==> ParseCategory(r.value.category).Some? && ParseStatus(r.value.status).Some?
    ensures r.Some? ==> r.value.category == b.category.value && r.value.description == b.description.value
                        && r.value.icon == b.icon.value && r.value.liveUrl == b.liveUrl
    ensures r.Some? && b.status.None? ==> r.value.status == StatusName(Active)
    ensures r.Some? && b.color.None? ==> r.value.color == DefaultColor
    ensures r.Some? && b.status.Some? ==> r.value.status == b.status.value
    ensures r.Some? && b.color.Some? ==> r.value.color == b.color.value
    ensures r.Some? ==> r.value.features == (if b.features.Some? then b.features.value else [])
    ensures r.Some? ==> r.value.techStack == (if b.techStack.Some? then b.techStack.value else [])
  {
    if b.title.None? || Trim(b.title.value) == "" || !Truthy(b.description) || !Truthy(b.icon)
       || b.category.None? || ParseCategory(b.category.value).None?
       || (b.status.Some? && ParseStatus(b.status.value).None?)
    then None
    else
      Some(Project(Trim(b.title.value), b.description.value, b.features.GetOr([]), b.techStack.GetOr([]),
                   b.category.value, b.icon.value, b.color.GetOr(DefaultColor), b.liveUrl,
                   b.status.GetOr("Active")))
  }

  /** A created card's title has no white space at either end. */
  lemma CreatedTitleClean(b: ProjectBody)
    requires NewProject(b).Some?
    ensures Trim(NewProject(b).value.title) == NewProject(b).value.title
  {
    TrimIdempotent(b.title.value);
  }

  /** `findByIdAndUpdate(id, body)`: the body's fields replace the stored
      ones; the title setter still trims, but no validator runs. */
  function MergeProject(p: Project, b: ProjectBody): (r: Project)
    ensures b.title.Some? ==> r.title == Trim(b.title.value)
    ensures b.title.None? ==> r.title == p.title
    ensures r.status == (if b.status.Some? then b.status.value else p.status)
    ensures r.category == (if b.category.Some? then b.category.value else p.category)
    ensures r.description == (if b.description.Some? then b.description.value else p.description)
    ensures r.features == (if b.features.Some? then b.features.value else p.features)
    ensures r.techStack == (if b.techStack.Some? then b.techStack.value else p.techStack)
    ensures r.icon == (if b.icon.Some? then b.icon.value else p.icon)
    ensures r.color == (if b.color.Some? then b.color.value else p.color)
    ensures r.liveUrl == (if b.liveUrl.Some? then b.liveUrl else p.liveUrl)
    ensures b == ProjectBody(None, None, None, None, None, None, None, None, None) ==> r == p
  {
    Project(if b.title.Some? then Trim(b.title.value) else p.title,
            b.description.GetOr(p.description), b.features.GetOr(p.features), b.techStack.GetOr(p.techStack),
            b.category.GetOr(p.category), b.icon.GetOr(p.icon), b.color.GetOr(p.color),
            if b.liveUrl.Some? then b.liveUrl else p.liveUrl, b.status.GetOr(p.status))
  }

  /** A stored title stays trimmed through any update. */
  lemma MergeKeepsTitleTrimmed(p: Project, b: ProjectBody)
    requires Trim(p.title) == p.title
    ensures Trim(MergeProject(p, b).title) == MergeProject(p, b).title
  {
    if b.title.Some? {
      TrimIdempotent(b.title.value);
    }
  }

  /** An update can set a status outside the enum, which the listing then
      never shows. */
  lemma UpdateBypassesEnum(p: Project)
    ensures var q := MergeProject(p, ProjectBody(None, None, None, None, None, None, None, None, Some("Archived")));
            ParseStatus(q.status).None? && q.status != StatusName(Active)
  {
  }

  /** Every stored title is its own trim, as the schema's setter keeps it. */
  predicate AllTrimmed(ps: map<Id, Project>) {
    forall k :: k in ps ==> Trim(ps[k].title) == ps[k].title
  }

  /** Storing a created card keeps every title trimmed. */
  lemma CreateKeepsTrimmed(ps: map<Id, Project>, k: Id, b: ProjectBody)
    requires AllTrimmed(ps) && NewProject(b).Some?
    ensures AllTrimmed(ps[k := NewProject(b).value])
  {
    CreatedTitleClean(b);
  }

  /** Storing an updated card keeps every title trimmed. */
  lemma UpdateKeepsTrimmed(ps: map<Id, Project>, k: Id, b: ProjectBody)
    requires AllTrimmed(ps) && k in ps
    ensures AllTrimmed(ps[k := MergeProject(ps[k], b)])
  {
    MergeKeepsTitleTrimmed(ps[k], b);
  }

  class ProjectTable {
    var projects: map<Id, Project>
    /** The next id the table issues. */
    var next: nat

    predicate Valid()
      reads this
    {
      forall k :: k in projects ==> k < next
    }


    constructor ()
      ensures projects == map[] && next == 0
      ensures Valid()
    {
      projects, next := map[], 0;
    }

    /** GET /projects: the active cards, newest first. */
    method List() returns (ids: seq<Id>)
      requires Valid()
      ensures forall i :: 0 <= i < |ids| ==> ids[i] in projects && projects[ids[i]].status == "Active"
      ensures forall k :: k in projects && projects[k].status == "Active" ==> k in ids
      ensures forall i, j :: 0 <= i < j < |ids| ==> ids[i] > ids[j]
    {
      ids := NewestFirst(projects, next, (p: Project) => p.status == "Active");
    }

    /** GET /projects/:id: the card whatever its status, or 404. */
    method Get(id: Id) returns (code: Code, p: Option<Project>)
      ensures code in {NotFound, Ok}
      ensures code == NotFound <==> id !in projects
      ensures code == Ok <==> p.Some?
      ensures p.Some? ==> id in projects && p.value == projects[id]
    {
      if id !in projects {
        return NotFound, None;
      }
      code, p := Ok, Some(projects[id]);
    }

    /** POST /projects: 201 with the new card, or 400 when it fails
        validation. */
    method Create(b: ProjectBody) returns (code: Code, id: Option<Id>)
      requires Valid()
      modifies this
      ensures Valid()
      ensures code == Created <==> NewProject(b).Some?
      ensures code != Created ==> code == BadRequest && unchanged(this) && id.None?
      ensures code == Created ==>
                && id == Some(old(next)) && next == old(next) + 1
                && projects == old(projects)[old(next) := NewProject(b).value]
    {
      var p := NewProject(b);
      if p.None? {
        return BadRequest, None;
      }
      var ps' := projects[next := p.value];
      assert forall k :: k in ps' ==> k < next + 1;
      id := Some(next);
      projects, next := ps', next + 1;
      code := Created;
    }

    /** PUT /projects/:id: the merged card, or null (still 200) for an
        absent id. */
    method Update(id: Id, b: ProjectBody) returns (code: Code, r: Option<Project>)
      modifies this
      ensures code == Ok && next == old(next)
      ensures id !in old(projects) ==> r.None? && unchanged(this)
      ensures id in old(projects) ==>
                && r == Some(MergeProject(old(projects)[id], b))
                && projects == old(projects)[id := r.value]
    {
      if id !in projects {
        return Ok, None;
      }
      r := Some(MergeProject(projects[id], b));
      projects := projects[id := r.value];
      code := Ok;
    }

    /** DELETE /projects/:id: "Project deleted" whether or not it existed. */
    method Delete(id: Id) returns (code: Code)
      modifies this
      ensures code == Ok
      ensures projects == old(projects) - {id} && next == old(next)
    {
      projects := projects - {id};
      code := Ok;
    }
  }
}
