/** The careers board: job postings and the applications made to them.
    Postings are created with validation but updated and deleted without
    any existence check; an application must name an existing posting, and
    records that posting's title at the moment it is made. */
module Careers {
  import opened Common

  /* ---------------- Career ---------------- */

  datatype Career = Career(
    title: string,
    location: string,
    kind: string,
    level: string,
    salary: Option<string>,
    tags: seq<string>,
    description: string)

  datatype CareerBody = CareerBody(
    title: Option<string>,
    location: Option<string>,
    kind: Option<string>,
    level: Option<string>,
    salary: Option<string>,
    tags: Option<seq<string>>,
    description: Option<string>)

  /** `new Career(body).save()`: title, location, type, level and description
      are required non-empty strings; tags default to none. */
  function NewCareer(b: CareerBody): (r: Option<Career>)
    ensures r.Some? <==> Truthy(b.title) && Truthy(b.location) && Truthy(b.kind) && Truthy(b.level) && Truthy(b.description)
    ensures r.Some? ==> r.value.title == b.title.value && r.value.description == b.description.value
                        && r.value.location == b.location.value && r.value.kind == b.kind.value
                        && r.value.level == b.level.value && r.value.salary == b.salary
    ensures r.Some? ==> r.value.tags == if b.tags.Some? then b.tags.value else []
  {
    if Truthy(b.title) && Truthy(b.location) && Truthy(b.kind) && Truthy(b.level) && Truthy(b.description)
    then Some(Career(b.title.value, b.location.value, b.kind.value, b.level.value, b.salary,
                     b.tags.GetOr([]), b.description.value))
    else None
  }

  /** `findByIdAndUpdate(id, body)`: the body's fields replace the stored
      ones, with no validation. */
  function MergeCareer(c: Career, b: CareerBody): (r: Career)
    ensures r.title == (if b.title.Some? then b.title.value else c.title)
    ensures r.location == (if b.location.Some? then b.location.value else c.location)
    ensures r.kind == (if b.kind.Some? then b.kind.value else c.kind)
    ensures r.level == (if b.level.Some? then b.level.value else c.level)
    ensures r.salary == (if b.salary.Some? then b.salary else c.salary)
    ensures r.tags == (if b.tags.Some? then b.tags.value else c.tags)
    ensures r.description == (if b.description.Some? then b.description.value else c.description)
    ensures b == CareerBody(None, None, None, None, None, None, None) ==> r == c
  {
    Career(b.title.GetOr(c.title), b.location.GetOr(c.location), b.kind.GetOr(c.kind),
           b.level.GetOr(c.level), if b.salary.Some? then b.salary else c.salary,
           b.tags.GetOr(c.tags), b.description.GetOr(c.description))
  }

  /* ---------------- Application ---------------- */

  datatype AppStatus = Pending | Reviewed | Interview | Rejected | Hired

  function StatusName(s: AppStatus): string {
    match s
    case Pending => "pending"
    case Reviewed => "reviewed"
    case Interview => "interview"
    case Rejected => "rejected"
    case Hired => "hired"
  }

  /** The enum check on an application's status. */
  function ParseStatus(s: string): (r: Option<AppStatus>)
    ensures r.Some? ==> StatusName(r.value) == s
    ensures r.None? ==> forall t: AppStatus :: StatusName(t) != s
  {
    if s == "pending" then Some(Pending)
    else if s == "reviewed" then Some(Reviewed)
    else if s == "interview" then Some(Interview)
    else if s == "rejected" then Some(Rejected)
    else if s == "hired" then Some(Hired)
    else None
  }

  /** Every status name parses back to its status. */
  lemma StatusRoundTrip(s: AppStatus)
    ensures ParseStatus(StatusName(s)) == Some(s)
  {
  }

  /** A stored application. Its status is a string: an update does not run
      the enum check, so any string can be stored there. */
  datatype Application = Application(
    name: string,
    email: string,
    phone: Option<string>,
    coverLetter: string,
    resume: Option<string>,
    jobId: Id,
    jobTitle: string,
    status: string)

  datatype ApplicationBody = ApplicationBody(
    name: Option<string>,
    email: Option<string>,
    phone: Option<string>,
    coverLetter: Option<string>,
    resume: Option<string>,
    jobId: Option<Id>,
    jobTitle: Option<string>,
    status: Option<string>)

  /** `new Application(body).save()`: name, email, cover letter, job id and
      job title are required; phone and resume are optional; the status
      must be one of the five names and defaults to "pending". */
  function NewApplication(b: ApplicationBody): (r: Option<Application>)
    ensures r.Some? <==>
              && Truthy(b.name) && Truthy(b.email) && Truthy(b.coverLetter) && b.jobId.Some? && Truthy(b.jobTitle)
              && (b.status.None? || ParseStatus(b.status.value).Some?)
    ensures r.Some? ==> && r.value.name == b.name.value && r.value.email == b.email.value
                        && r.value.phone == b.phone && r.value.resume == b.resume
                        && r.value.coverLetter == b.coverLetter.value
                        && r.value.jobId == b.jobId.value && r.value.jobTitle == b.jobTitle.value
    ensures r.Some? ==> ParseStatus(r.value.status).Some?
    ensures r.Some? && b.status.None? ==> r.value.status == StatusName(Pending)
    ensures r.Some? && b.status.Some? ==> r.value.status == b.status.value
  {
    if !(Truthy(b.name) && Truthy(b.email) && Truthy(b.coverLetter) && b.jobId.Some? && Truthy(b.jobTitle)) then None
    else if b.status.Some? && ParseStatus(b.status.value).None? then None
    else Some(Application(b.name.value, b.email.value, b.phone, b.coverLetter.value, b.resume,
                          b.jobId.value, b.jobTitle.value, b.status.GetOr("pending")))
  }

  /** The application an apply request makes for posting `job`: the body
      with its job title replaced by the posting's. */
  function ApplicationFor(b: ApplicationBody, job: Career): (r: Option<Application>)
    ensures r.Some? ==> r.value.jobTitle == job.title
    ensures r.Some? <==>
              && Truthy(b.name) && Truthy(b.email) && Truthy(b.coverLetter) && b.jobId.Some? && job.title != ""
              && (b.status.None? || ParseStatus(b.status.value).Some?)
  {
    NewApplication(b.(jobTitle := Some(job.title)))
  }

  /** Whatever job title the applicant sends is ignored. */
  lemma BodyTitleIgnored(b: ApplicationBody, job: Career, t: Option<string>)
    ensures ApplicationFor(b.(jobTitle := t), job) == ApplicationFor(b, job)
  {
    assert b.(jobTitle := t).(jobTitle := Some(job.title)) == b.(jobTitle := Some(job.title));
  }

  /** `findByIdAndUpdate(id, body)` on an application: any field, the
      status included, is replaced as given; no transition order is
      enforced. */
  function MergeApplication(a: Application, b: ApplicationBody): (r: Application)
    ensures r.name == (if b.name.Some? then b.name.value else a.name)
    ensures r.email == (if b.email.Some? then b.email.value else a.email)
    ensures r.phone == (if b.phone.Some? then b.phone else a.phone)
    ensures r.coverLetter == (if b.coverLetter.Some? then b.coverLetter.value else a.coverLetter)
    ensures r.resume == (if b.resume.Some? then b.resume else a.resume)
    ensures r.jobId == (if b.jobId.Some? then b.jobId.value else a.jobId)
    ensures r.status == (if b.status.Some? then b.status.value else a.status)
    ensures r.jobTitle == (if b.jobTitle.Some? then b.jobTitle.value else a.jobTitle)
    ensures b == ApplicationBody(None, None, None, None, None, None, None, None) ==> r == a
  {
    Application(b.name.GetOr(a.name), b.email.GetOr(a.email), if b.phone.Some? then b.phone else a.phone,
                b.coverLetter.GetOr(a.coverLetter), if b.resume.Some? then b.resume else a.resume,
                b.jobId.GetOr(a.jobId), b.jobTitle.GetOr(a.jobTitle), b.status.GetOr(a.status))
  }

  /** Any status can follow any other, backwards included. */
  lemma AnyTransition(a: Application, s: AppStatus)
    ensures MergeApplication(a, ApplicationBody(None, None, None, None, None, None, None, Some(StatusName(s)))).status == StatusName(s)
  {
  }

  class CareerBoard {
    var careers: map<Id, Career>
    var applications: map<Id, Application>
    /** The next id the board issues. */
    var next: nat

    predicate Valid()
      reads this
    {
      (forall k :: k in careers ==> k < next) && (forall k :: k in applications ==> k < next)
    }

    constructor ()
      ensures careers == map[] && applications == map[] && next == 0
      ensures Valid()
    {
      careers, applications, next := map[], map[], 0;
    }

    /** GET /careers: every posting once, in no particular order. */
    method GetCareers() returns (ids: seq<Id>)
      requires Valid()
      ensures forall i :: 0 <= i < |ids| ==> ids[i] in careers
      ensures forall k :: k in careers ==> k in ids
      ensures forall i, j :: 0 <= i < j < |ids| ==> ids[i] != ids[j]
    {
      ids := NewestFirst(careers, next, (c: Career) => true);
    }

    /** POST /careers: 201 with the new posting, or 400 when it fails
        validation. */
    method CreateCareer(b: CareerBody) returns (code: Code, id: Option<Id>)
      requires Valid()
      modifies this
      ensures Valid()
      ensures code == Created <==> NewCareer(b).Some?
      ensures code != Created ==> code == BadRequest && unchanged(this) && id.None?
      ensures code == Created ==>
                && id == Some(old(next)) && next == old(next) + 1
                && careers == old(careers)[old(next) := NewCareer(b).value]
                && applications == old(applications)
    {
      var c := NewCareer(b);
      if c.None? {
        return BadRequest, None;
      }
      id := Some(next);
      careers := careers[next := c.value];
      next := next + 1;
      code := Created;
    }

    /** PUT /careers/:id: the merged posting, or null (still 200) for an
        absent id. Applications keep the title they were made under. */
    method UpdateCareer(id: Id, b: CareerBody) returns (code: Code, r: Option<Career>)
      modifies this
      ensures code == Ok
      ensures id !in old(careers) ==> r.None? && unchanged(this)
      ensures id in old(careers) ==>
                && r == Some(MergeCareer(old(careers)[id], b))
                && careers == old(careers)[id := r.value]
      ensures applications == old(applications) && next == old(next)
    {
      if id !in careers {
        return Ok, None;
      }
      r := Some(MergeCareer(careers[id], b));
      careers := careers[id := r.value];
      code := Ok;
    }

    /** DELETE /careers/:id: "Career deleted" whether or not it existed; its
        applications stay. */
    method DeleteCareer(id: Id) returns (code: Code)
      modifies this
      ensures code == Ok
      ensures careers == old(careers) - {id}
      ensures applications == old(applications) && next == old(next)
    {
      careers := careers - {id};
      code := Ok;
    }

    /** POST /careers/apply: 404 when the body names no existing posting;
        400 when the application fails validation; otherwise 201, with the
        posting's current title recorded on the application. */
    method Apply(b: ApplicationBody) returns (code: Code, id: Option<Id>)
      requires Valid()
      modifies this
      ensures Valid()
      ensures code in {NotFound, BadRequest, Created}
      ensures code == NotFound <==> b.jobId.None? || b.jobId.value !in old(careers)
      ensures code == BadRequest <==> b.jobId.Some? && b.jobId.value in old(careers)
                                      && ApplicationFor(b, old(careers)[b.jobId.value]).None?
      ensures code != Created ==> unchanged(this) && id.None?
      ensures code == Created ==>
                && b.jobId.Some? && b.jobId.value in old(careers)
                && id == Some(old(next)) && next == old(next) + 1
                && applications == old(applications)[old(next) := ApplicationFor(b, old(careers)[b.jobId.value]).value]
                && applications[old(next)].jobTitle == old(careers)[b.jobId.value].title
                && applications[old(next)].jobId == b.jobId.value
                && careers == old(careers)
    {
      if b.jobId.None? || b.jobId.value !in careers {
        return NotFound, None;
      }
      var a := ApplicationFor(b, careers[b.jobId.value]);
      if a.None? {
        return BadRequest, None;
      }
      id := Some(next);
      applications := applications[next := a.value];
      next := next + 1;
      code := Created;
    }

    /** GET /careers/applications: every application once. The reply is
        sorted on `createdAt`, a path the application schema does not have
        (it records `appliedAt`), so the sort imposes no order. */
    method GetApplications() returns (ids: seq<Id>)
      requires Valid()
      ensures forall i :: 0 <= i < |ids| ==> ids[i] in applications
      ensures forall k :: k in applications ==> k in ids
      ensures forall i, j :: 0 <= i < j < |ids| ==> ids[i] != ids[j]
    {
      ids := NewestFirst(applications, next, (a: Application) => true);
    }

    /** PUT /careers/applications/:id: the merged application, or null
        (still 200) for an absent id. */
    method UpdateApplication(id: Id, b: ApplicationBody) returns (code: Code, r: Option<Application>)
      modifies this
      ensures code == Ok
      ensures id !in old(applications) ==> r.None? && unchanged(this)
      ensures id in old(applications) ==>
                && r == Some(MergeApplication(old(applications)[id], b))
                && applications == old(applications)[id := r.value]
      ensures careers == old(careers) && next == old(next)
    {
      if id !in applications {
        return Ok, None;
      }
      r := Some(MergeApplication(applications[id], b));
      applications := applications[id := r.value];
      code := Ok;
    }
  }
}
