/** The two admin route modules over the ledger: the client routes
    (clients, their projects and their payments) and the client-project
    routes, both run against one store of three collections. Every handler
    first runs the `checkAdmin` guard; a request it rejects gets 401 and
    changes nothing.

    The ledger equations are not enforced by the handlers; each handler
    that keeps them says so as `old(Consistent()) && <what the caller must
    respect> ==> Consistent()`, where the second part is a condition the
    code does not check (the URL's client owns the project, the body does
    not write a derived field). */
module Routes {
  import opened Common
  import opened Guard
  import opened Schema
  import opened Sums
  import opened Ledger
  import opened Reports

  /** The ids a request lists, as a set: `{$in: projectIds}`. */
  function IdSet(ids: seq<Id>): (d: set<Id>)
    ensures forall k :: k in d <==> k in ids
  {
    set k | k in ids
  }

  /** The method a new payment is recorded with: `paymentMethod || "Bank Transfer"`. */
  function MethodOrDefault(m: Option<string>): (s: string)
    ensures Truthy(m) ==> s == m.value
    ensures !Truthy(m) ==> ParseMethod(s) == Some(BankTransfer)
  {
    if Truthy(m) then m.value else "Bank Transfer"
  }

  /** The remaining amount an update writes when it supplies either amount:
      the new-or-old total less the new-or-old advance. */
  function Recomputed(p: ClientProject, b: ProjectBody): (r: ProjectBody)
    ensures b.totalAmount.None? && b.advancePaid.None? ==> r == b
    ensures b.totalAmount.Some? || b.advancePaid.Some? ==>
              r == b.(remainingAmount := Some(MergeProject(p, b).totalAmount - MergeProject(p, b).advancePaid))
  {
    if b.totalAmount.Some? || b.advancePaid.Some? then
      b.(remainingAmount := Some(b.totalAmount.GetOr(p.totalAmount) - b.advancePaid.GetOr(p.advancePaid)))
    else b
  }

  /** A project updated with a recomputed body is balanced, provided that an
      update supplying neither amount does not write `remainingAmount`. */
  lemma RecomputedIsBalanced(p: ClientProject, b: ProjectBody)
    requires p.remainingAmount == p.totalAmount - p.advancePaid
    requires b.totalAmount.Some? || b.advancePaid.Some? || b.remainingAmount.None?
    ensures var q := MergeProject(p, Recomputed(p, b));
            q.remainingAmount == q.totalAmount - q.advancePaid
  {
  }

  /** One requirement as an update stores it: the text trimmed (or "" when
      missing) and the files as given when they are an array, else none. */
  function NormalizeRequirement(r: Requirement): (n: Requirement)
    ensures n.text.Some? && n.files.Some?
    ensures Trim(n.text.value) == n.text.value
    ensures r.text.Some? ==> n.text.value == Trim(r.text.value)
    ensures r.text.None? ==> n.text.value == ""
    ensures r.files.Some? ==> n.files == r.files
    ensures r.files.None? ==> n.files.value == []
  {
    TrimIdempotent(r.text.GetOr(""));
    Requirement(Some(Trim(r.text.GetOr(""))), Some(r.files.GetOr([])))
  }

  function NormalizeRequirements(rs: seq<Requirement>): (ns: seq<Requirement>)
    ensures |ns| == |rs|
    ensures forall i :: 0 <= i < |rs| ==> ns[i] == NormalizeRequirement(rs[i])
  {
    seq(|rs|, i requires 0 <= i < |rs| => NormalizeRequirement(rs[i]))
  }

  /** Normalising is idempotent: a requirement list read back and sent again
      is stored unchanged. */
  lemma NormalizeIdempotent(rs: seq<Requirement>)
    ensures NormalizeRequirements(NormalizeRequirements(rs)) == NormalizeRequirements(rs)
  {
    var ns := NormalizeRequirements(rs);
    forall i | 0 <= i < |ns|
      ensures NormalizeRequirement(ns[i]) == ns[i]
    {
      TrimIdempotent(rs[i].text.GetOr(""));
    }
  }

  /** The body the client-project update sends to the database: amounts
      recomputed, then each requirement normalised. */
  function UpdateData(p: ClientProject, b: ProjectBody): (r: ProjectBody)
    ensures r == Recomputed(p, b).(requirements := r.requirements)
    ensures b.requirements.None? ==> r.requirements.None?
    ensures b.requirements.Some? ==> r.requirements == Some(NormalizeRequirements(b.requirements.value))
  {
    var u := Recomputed(p, b);
    if u.requirements.Some? then u.(requirements := Some(NormalizeRequirements(u.requirements.value))) else u
  }

  /** Removing the listed ids removes exactly the listed ids that exist. */
  lemma RemovedCount(ps: map<Id, ClientProject>, d: set<Id>)
    ensures |(ps - d).Keys| + |ps.Keys * d| == |ps.Keys|
  {
    assert (ps - d).Keys == ps.Keys - d;
    var found := ps.Keys * d;
    assert ps.Keys == (ps.Keys - d) + found;
    assert (ps.Keys - d) !! found;
  }

  /* ---------------- What each handler's writes keep ---------------- */

  /** The ledger equations, and no project naming an id not yet issued. */
  ghost predicate Sound(clients: map<Id, Client>, ps: map<Id, ClientProject>, next: nat) {
    Balanced(ps) && EarningsConsistent(clients, ps) && RefsIssued(ps, next)
  }

  /** A new client with zero earnings under the next id. */
  lemma NewClientKeeps(clients: map<Id, Client>, ps: map<Id, ClientProject>, next: nat, c: Client)
    requires Sound(clients, ps, next) && c.totalEarnings == 0
    ensures Sound(clients[next := c], ps, next + 1)
  {
    NoProjectsNoEarnings(ps, next);
  }

  /** A client update that leaves the earnings alone. */
  lemma ClientUpdateKeeps(clients: map<Id, Client>, ps: map<Id, ClientProject>, next: nat, id: Id, c: Client)
    requires Sound(clients, ps, next) && id in clients && c.totalEarnings == clients[id].totalEarnings
    ensures Sound(clients[id := c], ps, next)
  {
  }

  /** Deleting a client together with its projects. */
  lemma CascadeKeeps(clients: map<Id, Client>, ps: map<Id, ClientProject>, next: nat, id: Id)
    requires Sound(clients, ps, next)
    ensures Sound(clients - {id}, ProjectsNotOf(ps, id), next)
  {
    CascadeKeepsEarnings(clients, ps, id);
  }

  /** Inserting a balanced project under the next id and crediting its
      client (an issued id) with its total. */
  lemma InsertKeeps(clients: map<Id, Client>, ps: map<Id, ClientProject>, next: nat, p: ClientProject)
    requires Sound(clients, ps, next) && next !in ps
    requires p.client < next && p.remainingAmount == p.totalAmount - p.advancePaid
    ensures Sound(IncEarnings(clients, p.client, p.totalAmount), ps[next := p], next + 1)
  {
    InsertKeepsEarnings(clients, ps, next, p);
  }

  /** Replacing a project by a balanced one of the same client, and moving
      that client by the change of total (no write when it is unchanged). */
  lemma ReplaceKeeps(clients: map<Id, Client>, ps: map<Id, ClientProject>, next: nat, pid: Id, q: ClientProject)
    requires Sound(clients, ps, next) && pid in ps
    requires q.client == ps[pid].client && q.remainingAmount == q.totalAmount - q.advancePaid
    ensures Sound(IncEarnings(clients, q.client, q.totalAmount - ps[pid].totalAmount), ps[pid := q], next)
    ensures q.totalAmount == ps[pid].totalAmount ==> Sound(clients, ps[pid := q], next)
  {
    ReplaceKeepsEarnings(clients, ps, pid, q);
    if q.totalAmount == ps[pid].totalAmount {
      ReplaceSameTotalKeepsEarnings(clients, ps, pid, q);
    }
  }

  /** The client routes' project update: with the project's owner in the
      URL, no `client` in the body and no bare `remainingAmount`, the
      recomputed update and the earnings move keep the ledger. */
  lemma ClientProjectUpdateKeeps(clients: map<Id, Client>, ps: map<Id, ClientProject>, next: nat, pid: Id, b: ProjectBody)
    requires Sound(clients, ps, next) && pid in ps
    requires b.client.None? && (b.totalAmount.Some? || b.advancePaid.Some? || b.remainingAmount.None?)
    ensures var p := ps[pid];
            Sound(if b.totalAmount.Some? then IncEarnings(clients, p.client, b.totalAmount.value - p.totalAmount) else clients,
                  ps[pid := MergeProject(p, Recomputed(p, b))], next)
  {
    var p := ps[pid];
    RecomputedIsBalanced(p, b);
    ReplaceKeeps(clients, ps, next, pid, MergeProject(p, Recomputed(p, b)));
  }

  /** The client-project routes' update: with no `client` and no bare
      `remainingAmount` in the body, the recomputed, normalised update and
      the owner's earnings move keep the ledger. */
  lemma ProjectUpdateKeeps(clients: map<Id, Client>, ps: map<Id, ClientProject>, next: nat, pid: Id, b: ProjectBody)
    requires Sound(clients, ps, next) && pid in ps
    requires b.client.None? && (b.totalAmount.Some? || b.advancePaid.Some? || b.remainingAmount.None?)
    ensures var p := ps[pid];
            Sound(if b.totalAmount.Some? then IncEarnings(clients, p.client, b.totalAmount.value - p.totalAmount) else clients,
                  ps[pid := MergeProject(p, UpdateData(p, b))], next)
  {
    var p := ps[pid];
    var q := MergeProject(p, UpdateData(p, b));
    RecomputedIsBalanced(p, b);
    assert q == MergeProject(p, Recomputed(p, b)).(requirements := q.requirements);
    ReplaceKeeps(clients, ps, next, pid, q);
  }

  /** Deleting a project and debiting its client by its total. */
  lemma RemoveKeeps(clients: map<Id, Client>, ps: map<Id, ClientProject>, next: nat, pid: Id)
    requires Sound(clients, ps, next) && pid in ps
    ensures Sound(IncEarnings(clients, ps[pid].client, -ps[pid].totalAmount), ps - {pid}, next)
  {
    RemoveKeepsEarnings(clients, ps, pid);
  }

  /** A payment's increments, or their reversal. */
  lemma PaidKeeps(clients: map<Id, Client>, ps: map<Id, ClientProject>, next: nat, pid: Id, amount: int)
    requires Sound(clients, ps, next)
    ensures Sound(clients, IncPaid(ps, pid, amount), next)
  {
    IncPaidKeepsBalance(ps, pid, amount);
    IncPaidKeepsEarnings(clients, ps, pid, amount);
  }

  /** Debiting every owner of the listed projects, then deleting them. */
  lemma BulkKeeps(after: map<Id, Client>, before: map<Id, Client>, ps: map<Id, ClientProject>, next: nat, d: set<Id>)
    requires Sound(before, ps, next) && Debited(after, before, ps, ps.Keys * d)
    ensures Sound(after, ps - d, next)
  {
    BulkKeepsEarnings(after, before, ps, ps.Keys * d);
    assert ps - (ps.Keys * d) == ps - d;
  }

  /** The bulk delete's loop over the projects found: each one's owner is
      debited by its total, in whatever order the projects come. */
  method DebitOwners(before: map<Id, Client>, ps: map<Id, ClientProject>, found: set<Id>) returns (after: map<Id, Client>)
    requires found <= ps.Keys
    ensures Debited(after, before, ps, found)
  {
    after := before;
    var rest := found;
    DebitNone(before, ps);
    while rest != {}
      invariant rest <= found
      invariant Debited(after, before, ps, found - rest)
      decreases rest
    {
      var k :| k in rest;
      DebitStep(after, before, ps, found - rest, k);
      after := IncEarnings(after, ps[k].client, -ps[k].totalAmount);
      assert (found - rest) + {k} == found - (rest - {k});
      rest := rest - {k};
    }
    assert found - rest == found;
  }

  /** Which payments a payment list selects: `{client: id}` or `{project: id}`. */
  datatype PaymentFilter = ByClient(client: Id) | ByProject(project: Id)

  predicate Selects(f: PaymentFilter, q: Payment) {
    match f
    case ByClient(c) => q.client == c
    case ByProject(pid) => q.project == pid
  }

  class Store {
    /** The admin ids `Admin.findById` can find; the admin routes are not
        part of this model, so the set never changes. */
    const admins: set<Id>
    var clients: map<Id, Client>
    var projects: map<Id, ClientProject>
    var payments: map<Id, Payment>
    /** The next id the store issues. */
    var next: nat

    /** Every stored id was issued. */
    predicate Valid()
      reads this
    {
      && (forall k :: k in clients ==> k < next)
      && (forall k :: k in projects ==> k < next)
      && (forall k :: k in payments ==> k < next)
    }

    /** Both ledger equations hold, and no project names an id the store
        has not issued yet. */
    ghost predicate Consistent()
      reads this
    {
      Valid() && Sound(clients, projects, next)
    }

    constructor (admins: set<Id>)
      ensures this.admins == admins
      ensures clients == map[] && projects == map[] && payments == map[] && next == 0
      ensures Consistent()
    {
      this.admins := admins;
      clients, projects, payments, next := map[], map[], map[], 0;
    }

    /* ================ Client routes ================ */

    /** POST /clients: the body becomes a client; a body failing the schema
        (no name) makes `create` throw, answered with 500. */
    method CreateClient(auth: Option<string>, verify: Verifier, b: ClientBody) returns (code: Code, id: Option<Id>)
      requires Valid()
      modifies this
      ensures Valid()
      ensures code in {Unauthorized, ServerError, Created}
      ensures code == Unauthorized <==> CheckAdmin(auth, verify, admins).None?
      ensures code == ServerError <==> CheckAdmin(auth, verify, admins).Some? && NewClient(b).None?
      ensures code != Created ==> unchanged(this) && id.None?
      ensures code == Created ==>
                && id == Some(old(next)) && next == old(next) + 1
                && clients == old(clients)[old(next) := NewClient(b).value]
                && projects == old(projects) && payments == old(payments)
      ensures old(Consistent()) && (b.totalEarnings.None? || b.totalEarnings == Some(0)) ==> Consistent()
    {
      if CheckAdmin(auth, verify, admins).None? {
        return Unauthorized, None;
      }
      var c := NewClient(b);
      if c.None? {
        return ServerError, None;
      }
      if Consistent() && c.value.totalEarnings == 0 {
        NewClientKeeps(clients, projects, next, c.value);
      }
      id := Some(next);
      clients := clients[next := c.value];
      next := next + 1;
      code := Created;
    }

    /** GET /clients: every client, newest first, with its project count
        and the sums of its projects' amounts. */
    method GetClients(auth: Option<string>, verify: Verifier) returns (code: Code, rows: seq<ClientRow>)
      requires Valid()
      ensures code == Unauthorized <==> CheckAdmin(auth, verify, admins).None?
      ensures code != Unauthorized ==> code == Ok
      ensures code == Unauthorized ==> rows == []
      ensures forall i :: 0 <= i < |rows| ==>
                rows[i].id in clients && rows[i].client == clients[rows[i].id]
                && rows[i].summary == SummaryOf(projects, rows[i].id)
      ensures code == Ok ==> forall k :: k in clients ==> exists i :: 0 <= i < |rows| && rows[i].id == k
      ensures forall i, j :: 0 <= i < j < |rows| ==> rows[i].id > rows[j].id
    {
      if CheckAdmin(auth, verify, admins).None? {
        return Unauthorized, [];
      }
      rows := ListClients(clients, projects, next);
      code := Ok;
    }

    /** GET /clients/:clientId: the client with the sums of its projects'
        amounts (the reply omits the count), or 404. */
    method GetClient(auth: Option<string>, verify: Verifier, id: Id) returns (code: Code, row: Option<ClientRow>)
      ensures code in {Unauthorized, NotFound, Ok}
      ensures code == Unauthorized <==> CheckAdmin(auth, verify, admins).None?
      ensures code == NotFound <==> CheckAdmin(auth, verify, admins).Some? && id !in clients
      ensures code == Ok <==> row.Some?
      ensures row.Some? ==> id in clients && row.value == ClientRow(id, clients[id], SummaryOf(projects, id))
    {
      if CheckAdmin(auth, verify, admins).None? {
        return Unauthorized, None;
      }
      if id !in clients {
        return NotFound, None;
      }
      var s := SummarizeClient(projects, id);
      code, row := Ok, Some(ClientRow(id, clients[id], s));
    }

    /** PUT /clients/:clientId: the body's fields replace the stored ones
        without validation; an absent client gets 404. */
    method UpdateClient(auth: Option<string>, verify: Verifier, id: Id, b: ClientBody) returns (code: Code)
      requires Valid()
      modifies this
      ensures Valid()
      ensures code in {Unauthorized, NotFound, Ok}
      ensures code == Unauthorized <==> CheckAdmin(auth, verify, admins).None?
      ensures code == NotFound <==> CheckAdmin(auth, verify, admins).Some? && id !in old(clients)
      ensures code != Ok ==> unchanged(this)
      ensures code == Ok ==>
                && id in old(clients) && clients == old(clients)[id := MergeClient(old(clients)[id], b)]
                && projects == old(projects) && payments == old(payments) && next == old(next)
      ensures old(Consistent()) && b.totalEarnings.None? ==> Consistent()
    {
      if CheckAdmin(auth, verify, admins).None? {
        return Unauthorized;
      }
      if id !in clients {
        return NotFound;
      }
      if Consistent() && b.totalEarnings.None? {
        ClientUpdateKeeps(clients, projects, next, id, MergeClient(clients[id], b));
      }
      clients := clients[id := MergeClient(clients[id], b)];
      code := Ok;
    }

    /** DELETE /clients/:clientId: the client's projects and payments are
        deleted first, whether or not the client exists; then the client,
        or 404 when there was none. */
    method DeleteClient(auth: Option<string>, verify: Verifier, id: Id) returns (code: Code)
      requires Valid()
      modifies this
      ensures Valid()
      ensures code == Unauthorized <==> CheckAdmin(auth, verify, admins).None?
      ensures code == Unauthorized ==> unchanged(this)
      ensures code != Unauthorized ==>
                && projects == ProjectsNotOf(old(projects), id)
                && payments == PaymentsNotOfClient(old(payments), id)
                && clients == old(clients) - {id} && next == old(next)
                && (code == NotFound <==> id !in old(clients))
                && (code == Ok <==> id in old(clients))
      ensures old(Consistent()) ==> Consistent()
    {
      if CheckAdmin(auth, verify, admins).None? {
        return Unauthorized;
      }
      if Consistent() {
        CascadeKeeps(clients, projects, next, id);
        assert clients - {id} == clients || id in clients;
      }
      projects := ProjectsNotOf(projects, id);
      payments := PaymentsNotOfClient(payments, id);
      if id !in clients {
        return NotFound;
      }
      clients := clients - {id};
      code := Ok;
    }

    /** GET /clients/:clientId/projects and GET /projects/client/:clientId
        (owner given), GET /projects (no owner): the projects, newest first. */
    method GetProjects(auth: Option<string>, verify: Verifier, owner: Option<Id>) returns (code: Code, ids: seq<Id>)
      requires Valid()
      ensures code == Unauthorized <==> CheckAdmin(auth, verify, admins).None?
      ensures code != Unauthorized ==> code == Ok
      ensures code == Unauthorized ==> ids == []
      ensures forall i :: 0 <= i < |ids| ==> ids[i] in projects && (owner.None? || projects[ids[i]].client == owner.value)
      ensures code == Ok ==> forall k :: k in projects && (owner.None? || projects[k].client == owner.value) ==> k in ids
      ensures forall i, j :: 0 <= i < j < |ids| ==> ids[i] > ids[j]
    {
      if CheckAdmin(auth, verify, admins).None? {
        return Unauthorized, [];
      }
      ids := NewestFirst(projects, next, (p: ClientProject) => owner.None? || p.client == owner.value);
      code := Ok;
    }

    /** GET /clients/:clientId/payments (by client) and
        GET /projects/:projectId/payments (by project): each selected
        payment once. */
    method GetPayments(auth: Option<string>, verify: Verifier, f: PaymentFilter) returns (code: Code, ids: seq<Id>)
      requires Valid()
      ensures code == Unauthorized <==> CheckAdmin(auth, verify, admins).None?
      ensures code != Unauthorized ==> code == Ok
      ensures code == Unauthorized ==> ids == []
      ensures forall i :: 0 <= i < |ids| ==> ids[i] in payments && Selects(f, payments[ids[i]])
      ensures code == Ok ==> forall k :: k in payments && Selects(f, payments[k]) ==> k in ids
      ensures forall i, j :: 0 <= i < j < |ids| ==> ids[i] != ids[j]
    {
      if CheckAdmin(auth, verify, admins).None? {
        return Unauthorized, [];
      }
      ids := NewestFirst(payments, next, (q: Payment) => Selects(f, q));
      code := Ok;
    }

    /** POST /clients/:clientId/projects: a truthy title and a defined total
        are required (else 400); the advance defaults to 0 and a falsy
        status to "Active"; the pre-save hook sets the remaining amount and
        the URL's client earns the total. */
    method AddProject(auth: Option<string>, verify: Verifier, clientId: Id, b: ProjectBody) returns (code: Code, id: Option<Id>)
      requires Valid()
      modifies this
      ensures Valid()
      ensures code in {Unauthorized, BadRequest, Created}
      ensures code == Unauthorized <==> CheckAdmin(auth, verify, admins).None?
      ensures code == BadRequest <==> CheckAdmin(auth, verify, admins).Some? && (!Truthy(b.title) || b.totalAmount.None?)
      ensures code != Created ==> unchanged(this) && id.None?
      ensures code == Created ==>
                var total, advance := b.totalAmount.value, b.advancePaid.GetOr(0);
                && id == Some(old(next)) && next == old(next) + 1
                && projects == old(projects)[old(next) := ClientProject(
                     clientId, b.title.value, if Truthy(b.status) then b.status.value else "Active",
                     total, advance, total - advance, None, [], b.liveUrl, b.description)]
                && projects[old(next)].remainingAmount == projects[old(next)].totalAmount - projects[old(next)].advancePaid
                && clients == IncEarnings(old(clients), clientId, total)
                && payments == old(payments)
      ensures old(Consistent()) && clientId < old(next) ==> Consistent()
    {
      if CheckAdmin(auth, verify, admins).None? {
        return Unauthorized, None;
      }
      if !Truthy(b.title) || b.totalAmount.None? {
        return BadRequest, None;
      }
      var total, advance := b.totalAmount.value, b.advancePaid.GetOr(0);
      var status := if Truthy(b.status) then b.status.value else "Active";
      var p := CreateDocument(clientId, ProjectBody(None, b.title, Some(status), b.totalAmount,
                                                    Some(advance), Some(total - advance), None, None,
                                                    b.liveUrl, b.description));
      var clients', ps' := IncEarnings(clients, clientId, total), projects[next := p];
      assert clients'.Keys == clients.Keys && ps'.Keys == projects.Keys + {next};
      if Consistent() && clientId < next {
        InsertKeeps(clients, projects, next, p);
        assert Sound(clients', ps', next + 1);
      }
      id := Some(next);
      clients, projects, next := clients', ps', next + 1;
      code := Created;
    }

    /** PUT /clients/:clientId/projects/:projectId: 404 when absent;
        otherwise the remaining amount is recomputed when either amount is
        supplied, the body replaces the stored fields without validation,
        and the URL's client (not the project's owner) moves by the change
        of total when a total is supplied. */
    method UpdateClientProject(auth: Option<string>, verify: Verifier, clientId: Id, pid: Id, b: ProjectBody) returns (code: Code)
      requires Valid()
      modifies this
      ensures Valid()
      ensures code in {Unauthorized, NotFound, Ok}
      ensures code == Unauthorized <==> CheckAdmin(auth, verify, admins).None?
      ensures code == NotFound <==> CheckAdmin(auth, verify, admins).Some? && pid !in old(projects)
      ensures code != Ok ==> unchanged(this)
      ensures code == Ok ==>
                var p := old(projects)[pid];
                && pid in old(projects)
                && projects == old(projects)[pid := MergeProject(p, Recomputed(p, b))]
                && clients == (if b.totalAmount.Some? then IncEarnings(old(clients), clientId, b.totalAmount.value - p.totalAmount)
                               else old(clients))
                && payments == old(payments) && next == old(next)
      ensures old(Consistent()) && (pid in old(projects) ==> old(projects)[pid].client == clientId)
              && b.client.None? && (b.totalAmount.Some? || b.advancePaid.Some? || b.remainingAmount.None?)
              ==> Consistent()
    {
      if CheckAdmin(auth, verify, admins).None? {
        return Unauthorized;
      }
      if pid !in projects {
        return NotFound;
      }
      var p := projects[pid];
      var q := MergeProject(p, Recomputed(p, b));
      var clients' := if b.totalAmount.Some? then IncEarnings(clients, clientId, b.totalAmount.value - p.totalAmount) else clients;
      var ps' := projects[pid := q];
      assert clients'.Keys == clients.Keys && ps'.Keys == projects.Keys;
      if Consistent() && p.client == clientId && b.client.None? && (b.totalAmount.Some? || b.advancePaid.Some? || b.remainingAmount.None?) {
        ClientProjectUpdateKeeps(clients, projects, next, pid, b);
      }
      clients, projects := clients', ps';
      code := Ok;
    }

    /** DELETE /clients/:clientId/projects/:projectId: 404 when absent;
        otherwise the project's payments go, the URL's client loses the
        project's total (not its remaining amount), and the project goes. */
    method DeleteClientProject(auth: Option<string>, verify: Verifier, clientId: Id, pid: Id) returns (code: Code)
      requires Valid()
      modifies this
      ensures Valid()
      ensures code in {Unauthorized, NotFound, Ok}
      ensures code == Unauthorized <==> CheckAdmin(auth, verify, admins).None?
      ensures code == NotFound <==> CheckAdmin(auth, verify, admins).Some? && pid !in old(projects)
      ensures code != Ok ==> unchanged(this)
      ensures code == Ok ==>
                && pid in old(projects)
                && payments == PaymentsNotOf(old(payments), pid)
                && clients == IncEarnings(old(clients), clientId, -old(projects)[pid].totalAmount)
                && projects == old(projects) - {pid} && next == old(next)
      ensures old(Consistent()) && (pid in old(projects) ==> old(projects)[pid].client == clientId) ==> Consistent()
    {
      if CheckAdmin(auth, verify, admins).None? {
        return Unauthorized;
      }
      if pid !in projects {
        return NotFound;
      }
      var p := projects[pid];
      var pays', clients', ps' := PaymentsNotOf(payments, pid), IncEarnings(clients, clientId, -p.totalAmount), projects - {pid};
      assert pays'.Keys <= payments.Keys && clients'.Keys == clients.Keys && ps'.Keys <= projects.Keys;
      if Consistent() && p.client == clientId {
        RemoveKeeps(clients, projects, next, pid);
        assert Sound(clients', ps', next);
      }
      payments, clients, projects := pays', clients', ps';
      code := Ok;
    }

    /** POST /clients/:clientId/payments: a project id, a truthy amount
        (so not 0) and a date are required (else 400); the project must
        belong to the URL's client (else 404); a method outside the enum
        makes `create` throw (500). Otherwise the payment is recorded and
        the project's advance rises, and its remaining amount falls, by the
        amount. */
    method AddPayment(auth: Option<string>, verify: Verifier, clientId: Id, projectId: Option<Id>, amount: Option<int>,
                      paymentDate: Option<string>, paymentMethod: Option<string>, notes: Option<string>)
      returns (code: Code, id: Option<Id>)
      requires Valid()
      modifies this
      ensures Valid()
      ensures code in {Unauthorized, BadRequest, NotFound, ServerError, Created}
      ensures code == Unauthorized <==> CheckAdmin(auth, verify, admins).None?
      ensures code == BadRequest <==>
                CheckAdmin(auth, verify, admins).Some? && (projectId.None? || !TruthyNumber(amount) || !Truthy(paymentDate))
      ensures code == NotFound <==>
                && CheckAdmin(auth, verify, admins).Some? && projectId.Some? && TruthyNumber(amount) && Truthy(paymentDate)
                && !(projectId.value in old(projects) && old(projects)[projectId.value].client == clientId)
      ensures code == ServerError <==>
                && CheckAdmin(auth, verify, admins).Some? && projectId.Some? && TruthyNumber(amount) && Truthy(paymentDate)
                && projectId.value in old(projects) && old(projects)[projectId.value].client == clientId
                && ParseMethod(MethodOrDefault(paymentMethod)).None?
      ensures code != Created ==> unchanged(this) && id.None?
      ensures code == Created ==>
                && id == Some(old(next)) && next == old(next) + 1
                && payments == old(payments)[old(next) := Payment(clientId, projectId.value, amount.value, paymentDate.value,
                                                                  ParseMethod(MethodOrDefault(paymentMethod)).value, notes)]
                && projects == IncPaid(old(projects), projectId.value, amount.value)
                && clients == old(clients)
      ensures old(Consistent()) ==> Consistent()
    {
      if CheckAdmin(auth, verify, admins).None? {
        return Unauthorized, None;
      }
      if projectId.None? || !TruthyNumber(amount) || !Truthy(paymentDate) {
        return BadRequest, None;
      }
      var pid := projectId.value;
      if !(pid in projects && projects[pid].client == clientId) {
        return NotFound, None;
      }
      var q := NewPayment(Some(clientId), projectId, amount, paymentDate, Some(MethodOrDefault(paymentMethod)), notes);
      if q.None? {
        return ServerError, None;
      }
      if Consistent() {
        PaidKeeps(clients, projects, next, pid, amount.value);
      }
      id := Some(next);
      payments := payments[next := q.value];
      projects := IncPaid(projects, pid, amount.value);
      next := next + 1;
      code := Created;
    }

    /** DELETE /clients/:clientId/payments/:paymentId: 404 when absent;
        otherwise the payment's increments on its project are reverted and
        the payment goes. The URL's client is not consulted. */
    method DeletePayment(auth: Option<string>, verify: Verifier, clientId: Id, payId: Id) returns (code: Code)
      requires Valid()
      modifies this
      ensures Valid()
      ensures code in {Unauthorized, NotFound, Ok}
      ensures code == Unauthorized <==> CheckAdmin(auth, verify, admins).None?
      ensures code == NotFound <==> CheckAdmin(auth, verify, admins).Some? && payId !in old(payments)
      ensures code != Ok ==> unchanged(this)
      ensures code == Ok ==>
                var q := old(payments)[payId];
                && payId in old(payments)
                && projects == IncPaid(old(projects), q.project, -q.amount)
                && payments == old(payments) - {payId}
                && clients == old(clients) && next == old(next)
      ensures old(Consistent()) ==> Consistent()
    {
      if CheckAdmin(auth, verify, admins).None? {
        return Unauthorized;
      }
      if payId !in payments {
        return NotFound;
      }
      var q := payments[payId];
      if Consistent() {
        PaidKeeps(clients, projects, next, q.project, -q.amount);
      }
      projects := IncPaid(projects, q.project, -q.amount);
      payments := payments - {payId};
      code := Ok;
    }

    /* ================ Client-project routes ================ */

    /** GET /projects/:projectId: the project, or 404. */
    method GetProject(auth: Option<string>, verify: Verifier, pid: Id) returns (code: Code, p: Option<ClientProject>)
      ensures code in {Unauthorized, NotFound, Ok}
      ensures code == Unauthorized <==> CheckAdmin(auth, verify, admins).None?
      ensures code == NotFound <==> CheckAdmin(auth, verify, admins).Some? && pid !in projects
      ensures code == Ok <==> p.Some?
      ensures p.Some? ==> pid in projects && p.value == projects[pid]
    {
      if CheckAdmin(auth, verify, admins).None? {
        return Unauthorized, None;
      }
      if pid !in projects {
        return NotFound, None;
      }
      code, p := Ok, Some(projects[pid]);
    }

    /** POST /projects: client, a truthy title and a defined total are
        required (else 400). Category defaults to "Web App", advance to 0,
        status to "Active" and requirements to none, each only when
        undefined; the named client earns the total. */
    method CreateProject(auth: Option<string>, verify: Verifier, b: ProjectBody) returns (code: Code, id: Option<Id>)
      requires Valid()
      modifies this
      ensures Valid()
      ensures code in {Unauthorized, BadRequest, Created}
      ensures code == Unauthorized <==> CheckAdmin(auth, verify, admins).None?
      ensures code == BadRequest <==>
                CheckAdmin(auth, verify, admins).Some? && (b.client.None? || !Truthy(b.title) || b.totalAmount.None?)
      ensures code != Created ==> unchanged(this) && id.None?
      ensures code == Created ==>
                var total, advance := b.totalAmount.value, b.advancePaid.GetOr(0);
                && id == Some(old(next)) && next == old(next) + 1
                && projects == old(projects)[old(next) := ClientProject(
                     b.client.value, b.title.value, b.status.GetOr("Active"), total, advance, total - advance,
                     Some(b.category.GetOr("Web App")), b.requirements.GetOr([]), b.liveUrl, b.description)]
                && projects[old(next)].remainingAmount == projects[old(next)].totalAmount - projects[old(next)].advancePaid
                && clients == IncEarnings(old(clients), b.client.value, total)
                && payments == old(payments)
      ensures old(Consistent()) && (b.client.Some? ==> b.client.value < old(next)) ==> Consistent()
    {
      if CheckAdmin(auth, verify, admins).None? {
        return Unauthorized, None;
      }
      if b.client.None? || !Truthy(b.title) || b.totalAmount.None? {
        return BadRequest, None;
      }
      var owner, total, advance := b.client.value, b.totalAmount.value, b.advancePaid.GetOr(0);
      var p := CreateDocument(owner, ProjectBody(None, b.title, Some(b.status.GetOr("Active")), b.totalAmount,
                                                 Some(advance), Some(total - advance),
                                                 Some(b.category.GetOr("Web App")), Some(b.requirements.GetOr([])),
                                                 b.liveUrl, b.description));
      var clients', ps' := IncEarnings(clients, owner, total), projects[next := p];
      assert clients'.Keys == clients.Keys && ps'.Keys == projects.Keys + {next};
      if Consistent() && owner < next {
        InsertKeeps(clients, projects, next, p);
        assert Sound(clients', ps', next + 1);
      }
      id := Some(next);
      clients, projects, next := clients', ps', next + 1;
      code := Created;
    }

    /** PUT /projects/:projectId: 404 when absent; otherwise the remaining
        amount is recomputed when either amount is supplied, the stored
        owner's earnings move by the change of total when a total is
        supplied, and requirements are normalised. The update then runs the
        schema validators: an empty title fails them, answered with 500
        after the earnings write and with the project unchanged. */
    method UpdateProject(auth: Option<string>, verify: Verifier, pid: Id, b: ProjectBody) returns (code: Code)
      requires Valid()
      modifies this
      ensures Valid()
      ensures code in {Unauthorized, NotFound, ServerError, Ok}
      ensures code == Unauthorized <==> CheckAdmin(auth, verify, admins).None?
      ensures code == NotFound <==> CheckAdmin(auth, verify, admins).Some? && pid !in old(projects)
      ensures code == ServerError <==> CheckAdmin(auth, verify, admins).Some? && pid in old(projects) && b.title == Some("")
      ensures code == Unauthorized || code == NotFound ==> unchanged(this)
      ensures code == Ok || code == ServerError ==>
                var p := old(projects)[pid];
                && pid in old(projects)
                && clients == (if b.totalAmount.Some? then IncEarnings(old(clients), p.client, b.totalAmount.value - p.totalAmount)
                               else old(clients))
                && payments == old(payments) && next == old(next)
      ensures code == Ok ==> projects == old(projects)[pid := MergeProject(old(projects)[pid], UpdateData(old(projects)[pid], b))]
      ensures code == ServerError ==> projects == old(projects)
      ensures old(Consistent()) && b.client.None? && b.title != Some("")
              && (b.totalAmount.Some? || b.advancePaid.Some? || b.remainingAmount.None?)
              ==> Consistent()
    {
      if CheckAdmin(auth, verify, admins).None? {
        return Unauthorized;
      }
      if pid !in projects {
        return NotFound;
      }
      var p := projects[pid];
      var q := MergeProject(p, UpdateData(p, b));
      var clients' := if b.totalAmount.Some? then IncEarnings(clients, p.client, b.totalAmount.value - p.totalAmount) else clients;
      assert clients'.Keys == clients.Keys;
      if b.title == Some("") {
        clients := clients';
        return ServerError;
      }
      var ps' := projects[pid := q];
      if Consistent() && b.client.None? && (b.totalAmount.Some? || b.advancePaid.Some? || b.remainingAmount.None?) {
        ProjectUpdateKeeps(clients, projects, next, pid, b);
      }
      clients, projects := clients', ps';
      code := Ok;
    }

    /** DELETE /projects/:projectId: 404 when absent; otherwise the
        project's payments go, its owner loses its total, and it goes. */
    method DeleteProject(auth: Option<string>, verify: Verifier, pid: Id) returns (code: Code)
      requires Valid()
      modifies this
      ensures Valid()
      ensures code in {Unauthorized, NotFound, Ok}
      ensures code == Unauthorized <==> CheckAdmin(auth, verify, admins).None?
      ensures code == NotFound <==> CheckAdmin(auth, verify, admins).Some? && pid !in old(projects)
      ensures code != Ok ==> unchanged(this)
      ensures code == Ok ==>
                && pid in old(projects)
                && payments == PaymentsNotOf(old(payments), pid)
                && clients == IncEarnings(old(clients), old(projects)[pid].client, -old(projects)[pid].totalAmount)
                && projects == old(projects) - {pid} && next == old(next)
      ensures old(Consistent()) ==> Consistent()
    {
      if CheckAdmin(auth, verify, admins).None? {
        return Unauthorized;
      }
      if pid !in projects {
        return NotFound;
      }
      var p := projects[pid];
      var pays', clients', ps' := PaymentsNotOf(payments, pid), IncEarnings(clients, p.client, -p.totalAmount), projects - {pid};
      assert pays'.Keys <= payments.Keys && clients'.Keys == clients.Keys && ps'.Keys <= projects.Keys;
      if Consistent() {
        RemoveKeeps(clients, projects, next, pid);
        assert Sound(clients', ps', next);
      }
      payments, clients, projects := pays', clients', ps';
      code := Ok;
    }

    /** PATCH /projects/:projectId/status: a falsy status gets 400 (checked
        before existence), an absent project 404; otherwise only the status
        changes. */
    method PatchStatus(auth: Option<string>, verify: Verifier, pid: Id, status: Option<string>) returns (code: Code)
      requires Valid()
      modifies this
      ensures Valid()
      ensures code in {Unauthorized, BadRequest, NotFound, Ok}
      ensures code == Unauthorized <==> CheckAdmin(auth, verify, admins).None?
      ensures code == BadRequest <==> CheckAdmin(auth, verify, admins).Some? && !Truthy(status)
      ensures code == NotFound <==> CheckAdmin(auth, verify, admins).Some? && Truthy(status) && pid !in old(projects)
      ensures code != Ok ==> unchanged(this)
      ensures code == Ok ==>
                && pid in old(projects)
                && projects == old(projects)[pid := old(projects)[pid].(status := status.value)]
                && clients == old(clients) && payments == old(payments) && next == old(next)
      ensures old(Consistent()) ==> Consistent()
    {
      if CheckAdmin(auth, verify, admins).None? {
        return Unauthorized;
      }
      if !Truthy(status) {
        return BadRequest;
      }
      if pid !in projects {
        return NotFound;
      }
      var q := projects[pid].(status := status.value);
      if Consistent() {
        ReplaceKeeps(clients, projects, next, pid, q);
      }
      projects := projects[pid := q];
      code := Ok;
    }

    /** GET /projects/:projectId/stats: the project's amounts and status,
        the sum and number of its payments, and whether it is paid off. */
    method GetStats(auth: Option<string>, verify: Verifier, pid: Id) returns (code: Code, stats: Option<Stats>)
      ensures code in {Unauthorized, NotFound, Ok}
      ensures code == Unauthorized <==> CheckAdmin(auth, verify, admins).None?
      ensures code == NotFound <==> CheckAdmin(auth, verify, admins).Some? && pid !in projects
      ensures code == Ok <==> stats.Some?
      ensures stats.Some? ==>
                && pid in projects
                && stats.value.totalAmount == projects[pid].totalAmount
                && stats.value.advancePaid == projects[pid].advancePaid
                && stats.value.remainingAmount == projects[pid].remainingAmount
                && stats.value.status == projects[pid].status
                && stats.value.totalPayments == Total(PaidWeights(payments, pid))
                && stats.value.paymentCount == |PaymentIdsOf(payments, pid)|
                && (stats.value.completion == Zero <==> projects[pid].totalAmount <= 0)
                && (stats.value.completion != Zero ==>
                      stats.value.completion == Ratio(projects[pid].advancePaid, projects[pid].totalAmount))
                && (stats.value.isCompleted <==> projects[pid].remainingAmount == 0)
      ensures stats.Some? && Balanced(projects) ==>
                (stats.value.isCompleted <==> projects[pid].advancePaid == projects[pid].totalAmount)
    {
      if CheckAdmin(auth, verify, admins).None? {
        return Unauthorized, None;
      }
      stats := ProjectStats(projects, payments, pid);
      code := if stats.None? then NotFound else Ok;
    }

    /** POST /projects/bulk-delete: a missing or empty id list gets 400;
        otherwise the listed projects' payments go, each listed project
        that exists debits its owner by its total, and those projects go;
        the reply counts them. */
    method BulkDelete(auth: Option<string>, verify: Verifier, projectIds: Option<seq<Id>>) returns (code: Code, deletedCount: nat)
      requires Valid()
      modifies this
      ensures Valid()
      ensures code in {Unauthorized, BadRequest, Ok}
      ensures code == Unauthorized <==> CheckAdmin(auth, verify, admins).None?
      ensures code == BadRequest <==> CheckAdmin(auth, verify, admins).Some? && (projectIds.None? || projectIds.value == [])
      ensures code != Ok ==> unchanged(this) && deletedCount == 0
      ensures code == Ok ==>
                var d := IdSet(projectIds.value);
                && payments == PaymentsNotIn(old(payments), d)
                && Debited(clients, old(clients), old(projects), old(projects).Keys * d)
                && projects == old(projects) - d
                && next == old(next)
                && deletedCount == |old(projects).Keys * d|
                && |projects| + deletedCount == |old(projects)|
      ensures old(Consistent()) ==> Consistent()
    {
      if CheckAdmin(auth, verify, admins).None? {
        return Unauthorized, 0;
      }
      if projectIds.None? || projectIds.value == [] {
        return BadRequest, 0;
      }
      var d := IdSet(projectIds.value);
      var ps, before := projects, clients;
      var found := ps.Keys * d;
      var cs := DebitOwners(before, ps, found);
      RemovedCount(ps, d);
      var pays', ps' := PaymentsNotIn(payments, d), ps - d;
      assert pays'.Keys <= payments.Keys && cs.Keys == before.Keys && ps'.Keys <= ps.Keys;
      if Consistent() {
        BulkKeeps(cs, before, ps, next, d);
        assert Sound(cs, ps', next);
      }
      payments, clients, projects := pays', cs, ps';
      code, deletedCount := Ok, |found|;
    }
  }
}
