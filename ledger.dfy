/** The bookkeeping rules that tie the three ledger collections together.

    Two facts are meant to hold of a consistent store:
    - every project satisfies remainingAmount == totalAmount - advancePaid
      (`Balanced`);
    - every client's cached `totalEarnings` is the sum of `totalAmount` over
      the projects that name it (`EarningsConsistent`).

    The handlers keep them with separate `$inc`, `deleteMany` and delete
    writes. Each write is a function here, and each lemma says which
    combination of writes keeps the cached earnings right. */
module Ledger {
  import opened Common
  import opened Schema
  import opened Sums

  /** Which per-project amount a sum adds up for a client. */
  datatype Measure = DealValue | Advance | Remaining | Count

  /** What one project adds to client `c`'s sum of `m`: nothing unless the
      project names `c`. */
  function Contribution(p: ClientProject, c: Id, m: Measure): int {
    if p.client != c then 0
    else
      match m
      case DealValue => p.totalAmount
      case Advance => p.advancePaid
      case Remaining => p.remainingAmount
      case Count => 1
  }

  /** Every project's contribution to client `c`'s sum of `m`. */
  function Weights(ps: map<Id, ClientProject>, c: Id, m: Measure): (w: map<Id, int>)
    ensures w.Keys == ps.Keys
  {
    map k | k in ps :: Contribution(ps[k], c, m)
  }

  /** The sum of `totalAmount` over the projects that name client `c`. */
  ghost function EarningsOf(ps: map<Id, ClientProject>, c: Id): int {
    Total(Weights(ps, c, DealValue))
  }

  predicate Balanced(ps: map<Id, ClientProject>) {
    forall k :: k in ps ==> ps[k].remainingAmount == ps[k].totalAmount - ps[k].advancePaid
  }

  ghost predicate EarningsConsistent(clients: map<Id, Client>, ps: map<Id, ClientProject>) {
    forall c {:trigger EarningsOf(ps, c)} :: c in clients ==> clients[c].totalEarnings == EarningsOf(ps, c)
  }

  /** Every project names a client id the store has already issued, so a
      client created later cannot inherit projects. */
  predicate RefsIssued(ps: map<Id, ClientProject>, next: nat) {
    forall k :: k in ps ==> ps[k].client < next
  }

  /* ---------------- The writes ---------------- */

  /** `Client.findByIdAndUpdate(c, {$inc: {totalEarnings: delta}})`; a
      missing client is left missing. */
  function IncEarnings(clients: map<Id, Client>, c: Id, delta: int): map<Id, Client> {
    if c in clients then clients[c := clients[c].(totalEarnings := clients[c].totalEarnings + delta)]
    else clients
  }

  /** `ClientProject.findByIdAndUpdate(pid, {$inc: {advancePaid: amount,
      remainingAmount: -amount}})`; a missing project is left missing. */
  function IncPaid(ps: map<Id, ClientProject>, pid: Id, amount: int): map<Id, ClientProject> {
    if pid in ps
    then ps[pid := ps[pid].(advancePaid := ps[pid].advancePaid + amount,
                            remainingAmount := ps[pid].remainingAmount - amount)]
    else ps
  }

  /** `Payment.deleteMany({project: pid})`. */
  function PaymentsNotOf(pays: map<Id, Payment>, pid: Id): map<Id, Payment> {
    map k | k in pays && pays[k].project != pid :: pays[k]
  }

  /** `Payment.deleteMany({project: {$in: ids}})`. */
  function PaymentsNotIn(pays: map<Id, Payment>, ids: set<Id>): map<Id, Payment> {
    map k | k in pays && pays[k].project !in ids :: pays[k]
  }

  /** `Payment.deleteMany({client: c})`. */
  function PaymentsNotOfClient(pays: map<Id, Payment>, c: Id): map<Id, Payment> {
    map k | k in pays && pays[k].client != c :: pays[k]
  }

  /** `ClientProject.deleteMany({client: c})`. */
  function ProjectsNotOf(ps: map<Id, ClientProject>, c: Id): map<Id, ClientProject> {
    map k | k in ps && ps[k].client != c :: ps[k]
  }

  /** The ids of the projects that name client `c`. */
  function ProjectIdsOf(ps: map<Id, ClientProject>, c: Id): set<Id> {
    set k | k in ps && ps[k].client == c
  }

  /** The sum of `totalAmount` over the projects among `d` that name `c`. */
  ghost function Owed(ps: map<Id, ClientProject>, c: Id, d: set<Id>): int {
    Total(Restrict(Weights(ps, c, DealValue), d))
  }

  /** `after` is `before` with every client's earnings lowered by the
      `totalAmount` of its projects among `d`: the effect of the bulk-delete
      loop's `$inc` writes once it has visited `d`. */
  ghost predicate Debited(after: map<Id, Client>, before: map<Id, Client>, ps: map<Id, ClientProject>, d: set<Id>) {
    && after.Keys == before.Keys
    && forall c {:trigger Owed(ps, c, d)} :: c in before ==>
         after[c] == before[c].(totalEarnings := before[c].totalEarnings - Owed(ps, c, d))
  }

  /* ---------------- Payments ---------------- */

  /** A payment's `$inc` keeps every project balanced, whatever the amount
      and whichever project it names; so does its reversal. */
  lemma IncPaidKeepsBalance(ps: map<Id, ClientProject>, pid: Id, amount: int)
    requires Balanced(ps)
    ensures Balanced(IncPaid(ps, pid, amount))
    ensures IncPaid(ps, pid, amount).Keys == ps.Keys
    ensures IncPaid(IncPaid(ps, pid, amount), pid, -amount) == ps
  {
    if pid in ps {
      assert IncPaid(IncPaid(ps, pid, amount), pid, -amount)[pid] == ps[pid];
    }
  }

  /** A payment's `$inc` leaves every client's earnings sum as it was. */
  lemma IncPaidKeepsEarnings(clients: map<Id, Client>, ps: map<Id, ClientProject>, pid: Id, amount: int)
    requires EarningsConsistent(clients, ps)
    ensures EarningsConsistent(clients, IncPaid(ps, pid, amount))
  {
    forall c | c in clients
      ensures clients[c].totalEarnings == EarningsOf(IncPaid(ps, pid, amount), c)
    {
      assert clients[c].totalEarnings == EarningsOf(ps, c);
      assert Weights(IncPaid(ps, pid, amount), c, DealValue) == Weights(ps, c, DealValue);
    }
  }

  /* ---------------- Projects ---------------- */

  /** Creating project `id` for `p.client` and raising that client's earnings
      by `p.totalAmount` keeps every client's earnings equal to its sum. */
  lemma InsertKeepsEarnings(clients: map<Id, Client>, ps: map<Id, ClientProject>, id: Id, p: ClientProject)
    requires EarningsConsistent(clients, ps)
    requires id !in ps
    ensures EarningsConsistent(IncEarnings(clients, p.client, p.totalAmount), ps[id := p])
  {
    var clients' := IncEarnings(clients, p.client, p.totalAmount);
    forall c | c in clients'
      ensures clients'[c].totalEarnings == EarningsOf(ps[id := p], c)
    {
      assert c in clients && clients[c].totalEarnings == EarningsOf(ps, c);
      assert Weights(ps[id := p], c, DealValue) == Weights(ps, c, DealValue)[id := Contribution(p, c, DealValue)];
      TotalInsert(Weights(ps, c, DealValue), id, Contribution(p, c, DealValue));
    }
  }

  /** Replacing project `id` by `p` with the same client, and moving that
      client's earnings by the change in `totalAmount`, keeps every client's
      earnings equal to its sum. */
  lemma ReplaceKeepsEarnings(clients: map<Id, Client>, ps: map<Id, ClientProject>, id: Id, p: ClientProject)
    requires EarningsConsistent(clients, ps)
    requires id in ps && p.client == ps[id].client
    ensures EarningsConsistent(IncEarnings(clients, p.client, p.totalAmount - ps[id].totalAmount), ps[id := p])
  {
    var clients' := IncEarnings(clients, p.client, p.totalAmount - ps[id].totalAmount);
    forall c | c in clients'
      ensures clients'[c].totalEarnings == EarningsOf(ps[id := p], c)
    {
      assert c in clients && clients[c].totalEarnings == EarningsOf(ps, c);
      assert Weights(ps[id := p], c, DealValue) == Weights(ps, c, DealValue)[id := Contribution(p, c, DealValue)];
      TotalUpdate(Weights(ps, c, DealValue), id, Contribution(p, c, DealValue));
    }
  }

  /** Replacing a project by one with the same client and `totalAmount`
      needs no earnings write at all. */
  lemma ReplaceSameTotalKeepsEarnings(clients: map<Id, Client>, ps: map<Id, ClientProject>, id: Id, p: ClientProject)
    requires EarningsConsistent(clients, ps)
    requires id in ps && p.client == ps[id].client && p.totalAmount == ps[id].totalAmount
    ensures EarningsConsistent(clients, ps[id := p])
  {
    ReplaceKeepsEarnings(clients, ps, id, p);
    assert IncEarnings(clients, p.client, 0) == clients;
  }

  /** Deleting project `id` and lowering its client's earnings by its
      `totalAmount` keeps every client's earnings equal to its sum. */
  lemma RemoveKeepsEarnings(clients: map<Id, Client>, ps: map<Id, ClientProject>, id: Id)
    requires EarningsConsistent(clients, ps)
    requires id in ps
    ensures EarningsConsistent(IncEarnings(clients, ps[id].client, -ps[id].totalAmount), ps - {id})
  {
    var clients' := IncEarnings(clients, ps[id].client, -ps[id].totalAmount);
    forall c | c in clients'
      ensures clients'[c].totalEarnings == EarningsOf(ps - {id}, c)
    {
      assert c in clients && clients[c].totalEarnings == EarningsOf(ps, c);
      assert Weights(ps - {id}, c, DealValue) == Weights(ps, c, DealValue) - {id};
      TotalRemove(Weights(ps, c, DealValue), id);
    }
  }

  /** A client none of whose projects exists has zero earnings: the sum a
      new client must start from. */
  lemma NoProjectsNoEarnings(ps: map<Id, ClientProject>, c: Id)
    requires forall k :: k in ps ==> ps[k].client != c
    ensures EarningsOf(ps, c) == 0
  {
    TotalZero(Weights(ps, c, DealValue));
  }

  /** Deleting a client together with all of its projects leaves every other
      client's earnings equal to its sum. */
  lemma CascadeKeepsEarnings(clients: map<Id, Client>, ps: map<Id, ClientProject>, c: Id)
    requires EarningsConsistent(clients, ps)
    ensures EarningsConsistent(clients - {c}, ProjectsNotOf(ps, c))
  {
    var d := ProjectIdsOf(ps, c);
    forall o | o in clients - {c}
      ensures clients[o].totalEarnings == EarningsOf(ProjectsNotOf(ps, c), o)
    {
      assert clients[o].totalEarnings == EarningsOf(ps, o);
      var w := Weights(ps, o, DealValue);
      assert Weights(ProjectsNotOf(ps, c), o, DealValue) == w - d;
      TotalDropZeros(w, d);
    }
  }

  /** Debiting no project changes nothing. */
  lemma DebitNone(clients: map<Id, Client>, ps: map<Id, ClientProject>)
    ensures Debited(clients, clients, ps, {})
  {
    forall c | c in clients
      ensures Owed(ps, c, {}) == 0
    {
      assert Restrict(Weights(ps, c, DealValue), {}) == map[];
    }
  }

  /** One step of the bulk loop: lowering the earnings of project `k`'s
      client by its `totalAmount` extends the debited set by `k`. */
  lemma DebitStep(after: map<Id, Client>, before: map<Id, Client>, ps: map<Id, ClientProject>, d: set<Id>, k: Id)
    requires Debited(after, before, ps, d)
    requires k in ps && k !in d
    ensures Debited(IncEarnings(after, ps[k].client, -ps[k].totalAmount), before, ps, d + {k})
  {
    var next := IncEarnings(after, ps[k].client, -ps[k].totalAmount);
    forall c | c in before
      ensures next[c] == before[c].(totalEarnings := before[c].totalEarnings - Owed(ps, c, d + {k}))
    {
      assert after[c] == before[c].(totalEarnings := before[c].totalEarnings - Owed(ps, c, d));
      OwedOneMore(ps, c, d, k);
    }
  }

  lemma OwedOneMore(ps: map<Id, ClientProject>, c: Id, d: set<Id>, k: Id)
    requires k in ps && k !in d
    ensures Owed(ps, c, d + {k}) == Owed(ps, c, d) + (if ps[k].client == c then ps[k].totalAmount else 0)
  {
    var w := Weights(ps, c, DealValue);
    assert Restrict(w, d + {k}) == Restrict(w, d)[k := w[k]];
    TotalInsert(Restrict(w, d), k, w[k]);
  }

  /** Lowering each client's earnings by the totals of its projects among
      `d`, then deleting those projects, keeps every client's earnings equal
      to its sum. */
  lemma BulkKeepsEarnings(after: map<Id, Client>, before: map<Id, Client>, ps: map<Id, ClientProject>, d: set<Id>)
    requires EarningsConsistent(before, ps)
    requires Debited(after, before, ps, d)
    ensures EarningsConsistent(after, ps - d)
  {
    forall c | c in after
      ensures after[c].totalEarnings == EarningsOf(ps - d, c)
    {
      assert before[c].totalEarnings == EarningsOf(ps, c);
      assert after[c] == before[c].(totalEarnings := before[c].totalEarnings - Owed(ps, c, d));
      WeightsWithout(ps, d, c);
      TotalSplit(Weights(ps, c, DealValue), d);
    }
  }

  lemma WeightsWithout(ps: map<Id, ClientProject>, d: set<Id>, c: Id)
    ensures Weights(ps - d, c, DealValue) == Weights(ps, c, DealValue) - d
  {
  }
}
